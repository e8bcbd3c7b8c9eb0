/** `SuperReliableVideoProcessor` (simple_video_processor.py): the whole
    video in one pass, written to an AVI temporary through an MJPG or XVID
    writer and then converted by FFmpeg or moved into place. */
module SimpleProcessor {
  import opened Common
  import opened Media
  import opened Planner
  import opened ChunkEncoder
  import opened Concat

  // ---------------------------------------------------------------------
  // The effects.

  /** The style dispatch of the frame loop: "pencil" and "cartoon" get
      their simple effect, any other style leaves the frame as it is. The
      effects never raise. */
  function SimpleEffect(style: string, intensity: real, f: Frame, tk: Toolkit): Frame {
    if style == "pencil" then OrInput(tk.pencilSimple(f, intensity), f)
    else if style == "cartoon" then OrInput(tk.cartoonSimple(f, intensity), f)
    else f
  }

  /** Each effect yields its own result or, when it raises, the frame it was
      given; an unknown style is the identity. */
  lemma SimpleEffectFallsBack(style: string, intensity: real, f: Frame, tk: Toolkit)
    ensures style == "pencil" ==>
      SimpleEffect(style, intensity, f, tk) == (if tk.pencilSimple(f, intensity).Ok? then tk.pencilSimple(f, intensity).value else f)
    ensures style == "cartoon" ==>
      SimpleEffect(style, intensity, f, tk) == (if tk.cartoonSimple(f, intensity).Ok? then tk.cartoonSimple(f, intensity).value else f)
    ensures style != "pencil" && style != "cartoon" ==> SimpleEffect(style, intensity, f, tk) == f
  {
  }

  // ---------------------------------------------------------------------
  // Set-up.

  /** A reported rate of 0 or less is replaced by 30. */
  function SimpleFps(src: Capture): (fps: real)
    ensures fps > 0.0
    ensures src.Fps() > 0.0 ==> fps == src.Fps()
    ensures src.Fps() <= 0.0 ==> fps == 30.0
  {
    if src.Fps() <= 0.0 then 30.0 else src.Fps()
  }

  /** The frame window, clamped to `[0, total]` at both ends that a trim
      sets: `max(0, int(start * fps))` and `min(total, int(end * fps))`. */
  function SimpleWindow(total: int, fps: real, trim: Option<Trim>): (w: (int, int))
    requires fps > 0.0
    ensures !(trim.Some? && trim.value.Truthy()) ==> w == (0, total)
    ensures trim.Some? && trim.value.Truthy() ==> 0 <= w.0 && w.1 <= total
  {
    if trim.Some? && trim.value.Truthy() then
      var startTime := if trim.value.startTime.Some? then trim.value.startTime.value else 0.0;
      var endTime := if trim.value.endTime.Some? then trim.value.endTime.value else total as real / fps;
      (Max(0, Trunc(startTime * fps)), Min(total, Trunc(endTime * fps)))
    else (0, total)
  }

  /** A trim inside the video is the window of its frames. */
  lemma SimpleWindowOfTrim(total: int, fps: real, s: real, e: real)
    requires fps > 0.0 && 0.0 <= s * fps && e * fps <= total as real
    ensures SimpleWindow(total, fps, Some(Trim(Some(s), Some(e), false))) == (Trunc(s * fps), Trunc(e * fps))
  {
    TruncAtMost(e * fps, total);
    var w := SimpleWindow(total, fps, Some(Trim(Some(s), Some(e), false)));
    assert w.0 == Max(0, Trunc(s * fps)) && 0 <= Trunc(s * fps);
    assert w.1 == Min(total, Trunc(e * fps));
  }

  /** A trim with only a start runs to the reported last frame. */
  lemma SimpleWindowOfStart(total: int, fps: real, s: real)
    requires fps > 0.0
    ensures SimpleWindow(total, fps, Some(Trim(Some(s), None, false))) == (Max(0, Trunc(s * fps)), total)
  {
    var x := total as real / fps;
    DivCompare(total as real, fps, 0.0);
    TruncOfInt(total);
    assert Trunc(x * fps) == total;
    var w := SimpleWindow(total, fps, Some(Trim(Some(s), None, false)));
    assert w.0 == Max(0, Trunc(s * fps));
    assert w.1 == Min(total, Trunc(x * fps));
  }

  lemma TruncAtMost(x: real, n: int)
    requires x <= n as real
    ensures Trunc(x) <= n
  {
  }

  lemma TruncOfInt(n: int)
    ensures Trunc(n as real) == n
  {
  }

  /** The backend's window is not clamped, this one is: the same trim gives
      a different start. */
  lemma WindowsDiffer()
    ensures TrimWindow(100, 25.0, Some(Trim(Some(-2.0), Some(3.0), false))) == Ok((-50, 75))
    ensures SimpleWindow(100, 25.0, Some(Trim(Some(-2.0), Some(3.0), false))) == (0, 75)
  {
  }

  /** The output frame size: the resize size if given, else the crop size,
      else the source size. */
  function SimpleDims(crop: Option<Crop>, resize: Option<Resize>, width: int, height: int): (d: (int, int))
    ensures resize.Some? ==> d == (resize.value.width, resize.value.height)
    ensures resize.None? && crop.Some? ==> d == (crop.value.width, crop.value.height)
    ensures resize.None? && crop.None? ==> d == (width, height)
  {
    if resize.Some? then (resize.value.width, resize.value.height)
    else if crop.Some? then (crop.value.width, crop.value.height)
    else (width, height)
  }

  /** With both a crop and a resize this processor opens its writer at the
      resize size, the backend's chunk writer at the crop size. */
  lemma DimsPreferenceDiffers(c: Crop, r: Resize, width: int, height: int)
    ensures SimpleDims(Some(c), Some(r), width, height) == (r.width, r.height)
    ensures WriterDims(Some(c), Some(r), width, height) == (c.width, c.height)
  {
  }

  /** The crop clamped to the reported size: the origin as in the backend,
      then `w = min(w, W - x)` and `h = min(h, H - y)`. */
  function SimpleCrop(c: Crop, width: int, height: int): (k: Crop)
    ensures 0 <= k.x && 0 <= k.y
    ensures 0 <= c.width && 0 <= width ==> k.x + k.width <= width && k.width == Min(c.width, width)
    ensures 0 <= c.height && 0 <= height ==> k.y + k.height <= height && k.height == Min(c.height, height)
    ensures 0 <= c.x && c.x + c.width <= width && 0 <= c.y && c.y + c.height <= height && 0 <= c.width && 0 <= c.height
            ==> k == c
  {
    var x := CropOrigin(c.x, c.width, width);
    var y := CropOrigin(c.y, c.height, height);
    Crop(x, y, Min(c.width, width - x), Min(c.height, height - y))
  }

  /** One frame: the clamped crop, then `cv2.resize` to the output size
      when a crop or a resize is given, then the effect. Only the resize can
      raise. */
  function SimpleTransform(f: Frame, style: string, intensity: real, crop: Option<Crop>, resize: Option<Resize>,
                           width: int, height: int, tk: Toolkit): Outcome<Frame>
  {
    var cropped := if crop.Some? then
        var k := SimpleCrop(crop.value, width, height);
        Slice2D(f, k.y, k.y + k.height, k.x, k.x + k.width)
      else f;
    var d := SimpleDims(crop, resize, width, height);
    var sized := if resize.Some? || crop.Some? then tk.resize(cropped, d.0, d.1) else Ok(cropped);
    match sized
    case Raised(e) => Raised(e)
    case Ok(g) => Ok(SimpleEffect(style, intensity, g, tk))
  }

  function SimpleTransformOf(style: string, intensity: real, crop: Option<Crop>, resize: Option<Resize>,
                             width: int, height: int, tk: Toolkit): Frame -> Outcome<Frame>
  {
    f => SimpleTransform(f, style, intensity, crop, resize, width, height, tk)
  }

  /** Without a crop or a resize no frame can make the loop raise. */
  lemma PlainFramesNeverRaise(f: Frame, style: string, intensity: real, width: int, height: int, tk: Toolkit)
    ensures SimpleTransform(f, style, intensity, None, None, width, height, tk) == Ok(SimpleEffect(style, intensity, f, tk))
  {
  }

  /** `temp_dir / f"temp_output_{Path(output_path).stem}.avi"` */
  function TempOutput(tmpDir: string, output: string): (p: string)
    ensures EndsWith(p, ".avi")
  {
    var p := tmpDir + "/video_processing/temp_output_" + Stem(output) + ".avi";
    assert p[|p| - 4..] == ".avi";
    p
  }

  /** An output path ending in ".mp4" is never the temporary. */
  lemma TempIsNotMp4Output(tmpDir: string, output: string)
    requires EndsWith(output, ".mp4")
    ensures TempOutput(tmpDir, output) != output
  {
    var t := TempOutput(tmpDir, output);
    assert t[|t| - 1] == t[|t| - 4..][3] == 'i';
    assert output[|output| - 1] == output[|output| - 4..][3] == '4';
  }

  /** The writer for the temporary: MJPG, else XVID, else none. */
  function SimpleCodec(tk: Toolkit, temp: string): (c: Option<Codec>)
    ensures c.Some? ==> c.value == Mjpg || c.value == Xvid
    ensures c.Some? <==> tk.writerOpens(Mjpg, temp) || tk.writerOpens(Xvid, temp)
    ensures tk.writerOpens(Mjpg, temp) ==> c == Some(Mjpg)
  {
    if tk.writerOpens(Mjpg, temp) then Some(Mjpg)
    else if tk.writerOpens(Xvid, temp) then Some(Xvid)
    else None
  }

  // ---------------------------------------------------------------------
  // The run.

  /** What `temp_output` refers to in the `finally` block when the capture
      does not open: nothing, so that block raises `UnboundLocalError`,
      which replaces "Cannot open input video". */
  const TempUnbound := "cannot access local variable 'temp_output' where it is not associated with a value"

  /** How a run ends and the disk it leaves. */
  datatype Run = Run(result: Outcome<nat>, files: map<string, Stored>)

  /** The frames the loop encodes. */
  function SimpleEncoding(src: Capture, style: string, intensity: real, crop: Option<Crop>, trim: Option<Trim>,
                          resize: Option<Resize>, tk: Toolkit): Encoded<Frame>
  {
    var w := SimpleWindow(src.FrameCount(), SimpleFps(src), trim);
    Encode(ChunkInput(src, w.0, w.1), SimpleTransformOf(style, intensity, crop, resize, src.Width(), src.Height(), tk))
  }

  /** After `n > 0` frames reached the temporary: FFmpeg (when it is
      installed) converts it to the output, and a run that exits with 0
      and leaves an output ends there; otherwise the temporary is moved to
      the output. The `finally` block then removes any temporary left. */
  function Deliver(files: map<string, Stored>, temp: string, output: string, ffmpeg: Option<ToolRun>, n: nat): (r: Run)
    requires temp in files
  {
    var after := if ffmpeg.Some? then Leave(files, output, ffmpeg.value.Left()) else files;
    if ffmpeg.Some? && ffmpeg.value.Succeeded() && output in after then Run(Ok(n), after - {temp})
    else
      var moved := (after - {temp})[output := after[temp]];
      Run(Ok(n), moved - {temp})
  }

  /** `process_video_bulletproof` on the disk `files`; `src` is the capture
      of the input and `ffmpeg` the conversion run, none when FFmpeg is not
      on the path. */
  function Bulletproof(files: map<string, Stored>, src: Capture, output: string, style: string, intensity: real,
                       crop: Option<Crop>, trim: Option<Trim>, resize: Option<Resize>, tmpDir: string,
                       ffmpeg: Option<ToolRun>, tk: Toolkit): Run
  {
    if !src.isOpen then Run(Raised(TempUnbound), files)
    else
      var temp := TempOutput(tmpDir, output);
      Written(files, temp, output, SimpleCodec(tk, temp), SimpleEncoding(src, style, intensity, crop, trim, resize, tk),
              SimpleDims(crop, resize, src.Width(), src.Height()), ffmpeg, tk)
  }

  /** The run once the capture opened: `codec` is the writer for the
      temporary `temp` (none when neither opened), `e` what the frame loop
      wrote or raised and `d` the frame size the writer got. */
  function Written(files: map<string, Stored>, temp: string, output: string, codec: Option<Codec>, e: Encoded<Frame>,
                   d: (int, int), ffmpeg: Option<ToolRun>, tk: Toolkit): Run
  {
    if codec.None? then Run(Raised("Cannot create video writer"), files - {temp})
    else if e.failure.Some? then Run(Raised(e.failure.value), files - {temp})
    else
      var written := files[temp := Video(d.0, d.1, e.out, tk.sizeOf(e.out))];
      if |e.out| == 0 then Run(Raised("No frames were processed"), written - {temp})
      else Deliver(written, temp, output, ffmpeg, |e.out|)
  }

  /** The imperative run: each step of the source in order on the disk. */
  method ProcessVideoBulletproof(src: Capture, output: string, style: string, intensity: real,
                                 crop: Option<Crop>, trim: Option<Trim>, resize: Option<Resize>, tmpDir: string,
                                 ffmpeg: Option<ToolRun>, tk: Toolkit, disk: Disk)
    returns (r: Outcome<nat>)
    modifies disk
    ensures var run := Bulletproof(old(disk.files), src, output, style, intensity, crop, trim, resize, tmpDir, ffmpeg, tk);
      r == run.result && disk.files == run.files
  {
    if !src.isOpen {
      return Raised(TempUnbound);
    }
    var fps := SimpleFps(src);
    var total := src.FrameCount();
    var width, height := src.Width(), src.Height();
    var window := SimpleWindow(total, fps, trim);
    var dims := SimpleDims(crop, resize, width, height);
    var temp := TempOutput(tmpDir, output);
    var codec := SimpleCodec(tk, temp);
    r := WriteTemp(temp, output, codec, ChunkInput(src, window.0, window.1),
                   SimpleTransformOf(style, intensity, crop, resize, width, height, tk), dims, ffmpeg, tk, disk);
  }

  /** The run from the choice of the writer for `temp` on: the frames of
      `input` written through `t`, then the conversion or the move. */
  method WriteTemp(temp: string, output: string, codec: Option<Codec>, input: seq<Frame>, t: Frame -> Outcome<Frame>,
                   dims: (int, int), ffmpeg: Option<ToolRun>, tk: Toolkit, disk: Disk)
    returns (r: Outcome<nat>)
    modifies disk
    ensures var run := Written(old(disk.files), temp, output, codec, Encode(input, t), dims, ffmpeg, tk);
      r == run.result && disk.files == run.files
  {
    if codec.None? {
      disk.Unlink(temp);
      return Raised("Cannot create video writer");
    }
    var written, failure := WriteFrames(input, t);
    if failure.Some? {
      disk.Unlink(temp);
      return Raised(failure.value);
    }
    disk.Write(temp, Video(dims.0, dims.1, written, tk.sizeOf(written)));
    if |written| == 0 {
      disk.Unlink(temp);
      return Raised("No frames were processed");
    }
    r := Finalize(temp, output, ffmpeg, |written|, disk);
  }

  /** The frame loop: frames are transformed and written in order, and the
      count of frames written is the length of what the writer received. */
  method WriteFrames(input: seq<Frame>, t: Frame -> Outcome<Frame>) returns (written: seq<Frame>, failure: Option<string>)
    ensures Encode(input, t) == Encoded(written, failure)
  {
    written := [];
    var framesProcessed := 0;
    for k := 0 to |input|
      invariant Encode(input[..k], t) == Encoded(written, None)
      invariant framesProcessed == |written|
    {
      EncodeExtend(input, t, k);
      match t(input[k])
      case Raised(e) =>
        EncodeSticky(input, t, k + 1, |input|);
        EncodeWhole(input, t);
        return written, Some(e);
      case Ok(g) =>
        written := written + [g];
        framesProcessed := framesProcessed + 1;
    }
    EncodeWhole(input, t);
    failure := None;
  }

  /** The conversion, or the move, and the `finally` block. */
  method Finalize(temp: string, output: string, ffmpeg: Option<ToolRun>, n: nat, disk: Disk) returns (r: Outcome<nat>)
    requires temp in disk.files
    modifies disk
    ensures var run := Deliver(old(disk.files), temp, output, ffmpeg, n); r == run.result && disk.files == run.files
  {
    if ffmpeg.Some? {
      var left := ffmpeg.value.Left();
      if left.Some? {
        disk.Write(output, left.value);
      }
      if ffmpeg.value.Succeeded() && output in disk.files {
        disk.Unlink(temp);
        return Ok(n);
      }
    }
    disk.Move(temp, output);
    disk.Unlink(temp);
    r := Ok(n);
  }

  // ---------------------------------------------------------------------
  // What the run promises.

  /** A run succeeds exactly when the input opens, a writer opens, no
      resize raises and at least one frame is read; it then returns the
      number of frames written, which is at least 1 and at most the reported
      frame count. */
  lemma BulletproofResult(files: map<string, Stored>, src: Capture, output: string, style: string, intensity: real,
                          crop: Option<Crop>, trim: Option<Trim>, resize: Option<Resize>, tmpDir: string,
                          ffmpeg: Option<ToolRun>, tk: Toolkit)
    ensures var run := Bulletproof(files, src, output, style, intensity, crop, trim, resize, tmpDir, ffmpeg, tk);
      var e := SimpleEncoding(src, style, intensity, crop, trim, resize, tk);
      && (run.result.Ok? <==>
            src.isOpen && SimpleCodec(tk, TempOutput(tmpDir, output)).Some? && e.failure.None? && |e.out| > 0)
      && (run.result.Ok? ==> run.result.value == |e.out| && 1 <= run.result.value <= src.FrameCount())
      && (!src.isOpen ==> run == Run(Raised(TempUnbound), files))
  {
    if src.isOpen {
      var w := SimpleWindow(src.FrameCount(), SimpleFps(src), trim);
      var input := ChunkInput(src, w.0, w.1);
      assert |input| <= Max(0, w.1 - w.0);
    }
  }

  /** The frames the run writes are the transforms of the frames read from
      the start of the window, in order. */
  lemma BulletproofFrames(src: Capture, style: string, intensity: real, crop: Option<Crop>, trim: Option<Trim>,
                          resize: Option<Resize>, tk: Toolkit)
    ensures var w := SimpleWindow(src.FrameCount(), SimpleFps(src), trim);
      var input := ChunkInput(src, w.0, w.1);
      var e := SimpleEncoding(src, style, intensity, crop, trim, resize, tk);
      forall j | 0 <= j < |e.out| ::
        SimpleTransform(input[j], style, intensity, crop, resize, src.Width(), src.Height(), tk) == Ok(e.out[j])
  {
    var w := SimpleWindow(src.FrameCount(), SimpleFps(src), trim);
    EncodeOutputs(ChunkInput(src, w.0, w.1), SimpleTransformOf(style, intensity, crop, resize, src.Width(), src.Height(), tk));
  }

  /** The end of a run that wrote frames: the temporary is gone, no file
      but the output changes, and the output holds the conversion when
      FFmpeg exited with 0 and left a file, the temporary's content when
      the conversion did not succeed. */
  lemma DeliverFiles(files: map<string, Stored>, temp: string, output: string, ffmpeg: Option<ToolRun>, n: nat)
    requires temp in files && temp != output
    ensures var run := Deliver(files, temp, output, ffmpeg, n);
      && run.result == Ok(n)
      && temp !in run.files && output in run.files
      && (forall p | p != temp && p != output :: (p in run.files <==> p in files) && (p in files ==> run.files[p] == files[p]))
      && (ffmpeg.Some? && ffmpeg.value.Succeeded() && ffmpeg.value.Left().Some? ==> run.files[output] == ffmpeg.value.Left().value)
      && (ffmpeg.None? || !ffmpeg.value.Succeeded() ==> run.files[output] == files[temp])
  {
  }

  /** On an output path ending in ".mp4": no temporary is left behind; a
      failed run leaves the output as it was; a successful one leaves the
      FFmpeg conversion when that exited with 0 and left a file, and the
      frames written otherwise; no other file changes. */
  lemma BulletproofFiles(files: map<string, Stored>, src: Capture, output: string, style: string, intensity: real,
                         crop: Option<Crop>, trim: Option<Trim>, resize: Option<Resize>, tmpDir: string,
                         ffmpeg: Option<ToolRun>, tk: Toolkit)
    requires EndsWith(output, ".mp4") && src.isOpen
    ensures var run := Bulletproof(files, src, output, style, intensity, crop, trim, resize, tmpDir, ffmpeg, tk);
      var temp := TempOutput(tmpDir, output);
      var e := SimpleEncoding(src, style, intensity, crop, trim, resize, tk);
      var d := SimpleDims(crop, resize, src.Width(), src.Height());
      && temp !in run.files
      && (forall p | p != temp && p != output :: (p in run.files <==> p in files) && (p in files ==> run.files[p] == files[p]))
      && (run.result.Raised? ==> (output in run.files <==> output in files) && (output in files ==> run.files[output] == files[output]))
      && (run.result.Ok? ==> output in run.files)
      && (run.result.Ok? && ffmpeg.Some? && ffmpeg.value.Succeeded() && ffmpeg.value.Left().Some? ==>
            run.files[output] == ffmpeg.value.Left().value)
      && (run.result.Ok? && (ffmpeg.None? || !ffmpeg.value.Succeeded()) ==>
            run.files[output] == Video(d.0, d.1, e.out, tk.sizeOf(e.out)))
  {
    var temp := TempOutput(tmpDir, output);
    TempIsNotMp4Output(tmpDir, output);
    WrittenFiles(files, temp, output, SimpleCodec(tk, temp), SimpleEncoding(src, style, intensity, crop, trim, resize, tk),
                 SimpleDims(crop, resize, src.Width(), src.Height()), ffmpeg, tk);
  }

  /** Once the capture opened, no temporary is left behind; a failed run
      leaves the output as it was; a successful one leaves the FFmpeg
      conversion when that exited with 0 and left a file, and the frames
      written otherwise; no other file changes. */
  lemma WrittenFiles(files: map<string, Stored>, temp: string, output: string, codec: Option<Codec>, e: Encoded<Frame>,
                     d: (int, int), ffmpeg: Option<ToolRun>, tk: Toolkit)
    requires temp != output
    ensures var run := Written(files, temp, output, codec, e, d, ffmpeg, tk);
      && temp !in run.files
      && (forall p | p != temp && p != output :: (p in run.files <==> p in files) && (p in files ==> run.files[p] == files[p]))
      && (run.result.Raised? ==> (output in run.files <==> output in files) && (output in files ==> run.files[output] == files[output]))
      && (run.result.Ok? ==> output in run.files)
      && (run.result.Ok? && ffmpeg.Some? && ffmpeg.value.Succeeded() && ffmpeg.value.Left().Some? ==>
            run.files[output] == ffmpeg.value.Left().value)
      && (run.result.Ok? && (ffmpeg.None? || !ffmpeg.value.Succeeded()) ==>
            run.files[output] == Video(d.0, d.1, e.out, tk.sizeOf(e.out)))
  {
    if codec.Some? && e.failure.None? && |e.out| > 0 {
      DeliverFiles(files[temp := Video(d.0, d.1, e.out, tk.sizeOf(e.out))], temp, output, ffmpeg, |e.out|);
    }
  }
}
