/** Frames, captures, writers and files as the pipeline sees them.

    OpenCV and the filesystem are replaced by values: a capture is what the
    decoder would deliver, a file is what an encoder left on disk, and the
    pixel arithmetic of every filter is a function handed in from outside. */
module Media {
  import opened Common

  datatype Pixel = Bgr(blue: int, green: int, red: int)

  const Black := Bgr(0, 0, 0)

  /** A decoded image: `height` rows of `width` pixels (a numpy array of
      shape (height, width, 3)). */
  datatype Raster = Raster(height: nat, width: nat, rows: seq<seq<Pixel>>) {
    predicate WellFormed() {
      |rows| == height && forall r | 0 <= r < |rows| :: |rows[r]| == width
    }
  }

  type Frame = f: Raster | f.WellFormed() witness Raster(0, 0, [])

  /** One bound of a Python slice `s[a:b]` on a sequence of length n:
      negative indices count from the end, and both ends are clamped. */
  function SliceIndex(i: int, n: nat): (k: nat)
    ensures k <= n
    ensures 0 <= i <= n ==> k == i
  {
    if i < 0 then Max(0, i + n) else Min(i, n)
  }

  /** The half-open index range `[lo, hi)` that `s[a:b]` selects. */
  function SliceRange(a: int, b: int, n: nat): (r: (nat, nat))
    ensures r.0 <= r.1 <= n
    ensures 0 <= a <= b <= n ==> r == (a, b)
  {
    var lo := SliceIndex(a, n);
    var hi := SliceIndex(b, n);
    if hi < lo then (lo, lo) else (lo, hi)
  }

  /** numpy's `frame[y0:y1, x0:x1]`: never raises, may be empty. */
  function Slice2D(f: Frame, y0: int, y1: int, x0: int, x1: int): (g: Frame)
    ensures g.height == SliceRange(y0, y1, f.height).1 - SliceRange(y0, y1, f.height).0
    ensures g.width == SliceRange(x0, x1, f.width).1 - SliceRange(x0, x1, f.width).0
    ensures forall i, j | 0 <= i < g.height && 0 <= j < g.width ::
      g.rows[i][j] == f.rows[SliceRange(y0, y1, f.height).0 + i][SliceRange(x0, x1, f.width).0 + j]
  {
    var (ylo, yhi) := SliceRange(y0, y1, f.height);
    var (xlo, xhi) := SliceRange(x0, x1, f.width);
    var rows := seq(yhi - ylo, i requires 0 <= i < yhi - ylo => f.rows[ylo + i][xlo..xhi]);
    assert forall i | 0 <= i < |rows| :: rows[i] == f.rows[ylo + i][xlo..xhi] && |rows[i]| == xhi - xlo;
    Raster(yhi - ylo, xhi - xlo, rows)
  }

  /** What `cv2.VideoCapture(path)` delivers. `frameCount` is the container's
      reported length; `frames` is what decoding actually yields, which may
      be shorter. A capture that did not open reports 0 for every property. */
  datatype Capture = Capture(isOpen: bool, fps: real, width: int, height: int,
                             frameCount: int, frames: seq<Frame>) {
    function Fps(): real { if isOpen then fps else 0.0 }
    function FrameCount(): int { if isOpen then frameCount else 0 }
    function Width(): int { if isOpen then width else 0 }
    function Height(): int { if isOpen then height else 0 }

    /** `cap.set(CAP_PROP_POS_FRAMES, k)` followed by reads until `read()`
        fails. A position before the first frame is taken as the first frame. */
    function StreamFrom(k: int): (s: seq<Frame>)
      ensures isOpen && 0 <= k <= |frames| ==> s == frames[k..]
      ensures !isOpen ==> s == []
    {
      if !isOpen then [] else frames[Min(Max(k, 0), |frames|)..]
    }
  }

  /** An effect whose body is wrapped in a bare `except` that returns the
      input frame. */
  function OrInput(o: Outcome<Frame>, f: Frame): (g: Frame)
    ensures o.Raised? ==> g == f
    ensures o.Ok? ==> g == o.value
  {
    if o.Ok? then o.value else f
  }

  /** The FourCC codes the source asks `cv2.VideoWriter` for. */
  datatype Codec = Avc1 | Mp4v | Mjpg | Xvid

  /** `crop_params`: `{x, y, width, height}` in source pixels. */
  datatype Crop = Crop(x: int, y: int, width: int, height: int)

  /** `resize_params`: `{width, height}` of the output. */
  datatype Resize = Resize(width: int, height: int)

  /** The OpenCV build the code runs against. Every filter is opaque: it
      returns a frame or raises. The integer arguments of the effects are the
      parameters the source derives from the intensity (blur kernel, colour
      count, brush size and strokes), so that the derivations stay visible.
      `writerOpens(c, p)` says whether a `cv2.VideoWriter` for codec `c` on
      path `p` reports `isOpened()`, and `sizeOf` is the byte size of the
      file a writer leaves for the frames it received. */
  datatype Toolkit = Toolkit(
    resize: (Frame, int, int) -> Outcome<Frame>,
    sketch: (Frame, int, real) -> Outcome<Frame>,
    cartoon: (Frame, int, real) -> Outcome<Frame>,
    pencilSimple: (Frame, real) -> Outcome<Frame>,
    cartoonSimple: (Frame, real) -> Outcome<Frame>,
    oilPainting: (Frame, int, int, real) -> Outcome<Frame>,
    oilFallback: (Frame, real) -> Outcome<Frame>,
    watercolor: (Frame, real) -> Outcome<Frame>,
    anime: (Frame, int, real) -> Outcome<Frame>,
    vintage: (Frame, real) -> Outcome<Frame>,
    writerOpens: (Codec, string) -> bool,
    sizeOf: seq<Frame> -> nat)

  /** A file on disk: a video written by an encoder (its declared frame size,
      the frames it holds and its byte size) or a text file. */
  datatype Stored = Video(width: int, height: int, frames: seq<Frame>, size: nat)
                  | Text(content: string)
  {
    function Size(): nat {
      match this
      case Video(_, _, _, n) => n
      case Text(s) => |s|
    }

    /** What `cv2.VideoCapture` reads back from the file. */
    function Frames(): seq<Frame> {
      match this
      case Video(_, _, fs, _) => fs
      case Text(_) => []
    }
  }

  /** The directory tree, keyed by absolute path. */
  class Disk {
    var files: map<string, Stored>

    constructor (initial: map<string, Stored>)
      ensures files == initial
    {
      files := initial;
    }

    /** Creating or overwriting a file. */
    method Write(path: string, content: Stored)
      modifies this
      ensures files == old(files)[path := content]
    {
      files := files[path := content];
    }

    /** `Path.unlink(missing_ok=True)` */
    method Unlink(path: string)
      modifies this
      ensures files == old(files) - {path}
    {
      files := files - {path};
    }

    /** `shutil.copy2(src, dst)` */
    method Copy(src: string, dst: string)
      requires src in files
      modifies this
      ensures files == old(files)[dst := old(files)[src]]
    {
      files := files[dst := files[src]];
    }

    /** `shutil.move(src, dst)` */
    method Move(src: string, dst: string)
      requires src in files
      modifies this
      ensures files == (old(files) - {src})[dst := old(files)[src]]
    {
      var content := files[src];
      files := (files - {src})[dst := content];
    }
  }

  // ---------------------------------------------------------------------
  // Encoding a run of frames with a per-frame transformation that may raise.

  /** The frames a writer received before the first failure, and that
      failure's message if there was one. */
  datatype Encoded<F> = Encoded(out: seq<F>, failure: Option<string>)

  /** One more frame: once a frame has raised, later frames are not looked at. */
  function Step<F>(e: Encoded<F>, r: Outcome<F>): Encoded<F> {
    if e.failure.Some? then e
    else match r
      case Ok(g) => Encoded(e.out + [g], None)
      case Raised(msg) => Encoded(e.out, Some(msg))
  }

  /** Transforming the frames `fs` in order, stopping at the first one whose
      transformation raises. The result is the transformed prefix of the
      input, and a failure leaves at least one frame unwritten. */
  function Encode<F>(fs: seq<F>, t: F -> Outcome<F>): (e: Encoded<F>)
    ensures |e.out| <= |fs|
    ensures e.failure.None? ==> |e.out| == |fs|
    ensures e.failure.Some? ==> |e.out| < |fs|
    decreases |fs|
  {
    if fs == [] then Encoded([], None)
    else Step(Encode(fs[..|fs| - 1], t), t(fs[|fs| - 1]))
  }

  /** Each output frame is the transformation of the input frame at the
      same position. */
  lemma {:induction false} EncodeOutputs<F>(fs: seq<F>, t: F -> Outcome<F>)
    ensures forall j | 0 <= j < |Encode(fs, t).out| :: t(fs[j]) == Ok(Encode(fs, t).out[j])
    decreases |fs|
  {
    if fs != [] {
      var init := fs[..|fs| - 1];
      EncodeOutputs(init, t);
      var e := Encode(fs, t);
      var p := Encode(init, t);
      forall j | 0 <= j < |e.out| ensures t(fs[j]) == Ok(e.out[j]) {
        if j < |p.out| {
          assert e.out[j] == p.out[j];
          assert fs[j] == init[j];
        }
      }
    }
  }

  /** The failure, if any, is that of the frame right after the output. */
  lemma {:induction false} EncodeFailure<F>(fs: seq<F>, t: F -> Outcome<F>)
    ensures var e := Encode(fs, t); e.failure.Some? ==> t(fs[|e.out|]) == Raised(e.failure.value)
    decreases |fs|
  {
    if fs != [] {
      EncodeFailure(fs[..|fs| - 1], t);
    }
  }

  /** Encoding succeeds exactly when no frame raises. */
  lemma EncodeSucceedsIff<F>(fs: seq<F>, t: F -> Outcome<F>)
    ensures Encode(fs, t).failure.None? <==> forall j | 0 <= j < |fs| :: t(fs[j]).Ok?
  {
    var e := Encode(fs, t);
    EncodeOutputs(fs, t);
    EncodeFailure(fs, t);
    if e.failure.Some? {
      assert !t(fs[|e.out|]).Ok?;
    }
  }

  lemma EncodeExtend<F>(fs: seq<F>, t: F -> Outcome<F>, k: nat)
    requires k < |fs|
    ensures Encode(fs[..k + 1], t) == Step(Encode(fs[..k], t), t(fs[k]))
  {
    assert fs[..k + 1][..k] == fs[..k];
  }

  /** Frames after a failure change nothing. */
  lemma {:induction false} EncodeSticky<F>(fs: seq<F>, t: F -> Outcome<F>, k: nat, m: nat)
    requires k <= m <= |fs|
    requires Encode(fs[..k], t).failure.Some?
    ensures Encode(fs[..m], t) == Encode(fs[..k], t)
    decreases m - k
  {
    if k < m {
      EncodeSticky(fs, t, k, m - 1);
      EncodeExtend(fs, t, m - 1);
    }
  }

  /** A frame that raises after a clean prefix decides the whole encoding. */
  lemma EncodeFailsAt<F>(fs: seq<F>, t: F -> Outcome<F>, k: nat)
    requires k < |fs|
    requires Encode(fs[..k], t).failure.None? && t(fs[k]).Raised?
    ensures Encode(fs, t) == Encoded(Encode(fs[..k], t).out, Some(t(fs[k]).error))
  {
    EncodeExtend(fs, t, k);
    EncodeSticky(fs, t, k + 1, |fs|);
    assert fs[..|fs|] == fs;
  }

  lemma EncodeWhole<F>(fs: seq<F>, t: F -> Outcome<F>)
    ensures Encode(fs[..|fs|], t) == Encode(fs, t)
  {
    assert fs[..|fs|] == fs;
  }
}
