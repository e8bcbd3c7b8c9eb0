/** The request-level helpers of the API (backend/server.py): the upload
    checks, the file name a download is offered under, and the positions
    of the preview frames. */
module Routes {
  import opened Common
  import opened Media
  import opened Progress

  // ---------------------------------------------------------------------
  // POST /upload

  /** `2 * 1024 * 1024 * 1024`: the largest accepted upload, in bytes. */
  const MaxUploadBytes: nat := 2 * 1024 * 1024 * 1024

  /** The smallest accepted upload, in bytes. */
  const MinUploadBytes: nat := 1000

  /** The multipart file as the route receives it: its name, its declared
      content type (if any) and the length of its content. */
  datatype UploadFile = UploadFile(filename: string, contentType: Option<string>, size: nat)

  predicate IsVideoType(t: Option<string>) {
    t.Some? && StartsWith(t.value, "video/")
  }

  /** The first check the upload fails, as the status code and detail of
      the `HTTPException` it raises; none when it passes them all. The
      route's later test for a content type starting with "video/" (with
      the detail "File must be a video") repeats the first one and cannot
      fail, so it has no branch here. */
  function UploadRejection(file: Option<UploadFile>): (r: Option<(nat, string)>)
    ensures r.None? <==>
      file.Some? && IsVideoType(file.value.contentType) && MinUploadBytes <= file.value.size <= MaxUploadBytes
    ensures r.Some? ==> r.value.0 == 400 || r.value.0 == 413
    ensures r.Some? && r.value.0 == 413 <==>
      file.Some? && IsVideoType(file.value.contentType) && file.value.size > MaxUploadBytes
  {
    if file.None? then Some((400, "No file provided"))
    else if !IsVideoType(file.value.contentType) then Some((400, "File must be a video format"))
    else if file.value.size > MaxUploadBytes then Some((413, "File too large (max 2GB)"))
    else if file.value.size < MinUploadBytes then Some((400, "File too small or corrupted"))
    else None
  }

  /** The checks come in a fixed order: a missing file before the type, the
      type before the size, and an oversized file before a short one. */
  lemma UploadRejectionOrder(file: UploadFile)
    ensures UploadRejection(None) == Some((400, "No file provided"))
    ensures !IsVideoType(file.contentType) ==> UploadRejection(Some(file)) == Some((400, "File must be a video format"))
    ensures IsVideoType(file.contentType) && file.size > MaxUploadBytes ==>
      UploadRejection(Some(file)) == Some((413, "File too large (max 2GB)"))
    ensures IsVideoType(file.contentType) && file.size < MinUploadBytes ==>
      UploadRejection(Some(file)) == Some((400, "File too small or corrupted"))
    ensures UploadRejection(Some(file)) != Some((400, "File must be a video"))
  {
  }

  /** The texts the blanket handler produces for the codes the routes raise. */
  lemma ExceptionTexts(detail: string)
    ensures ExceptionText(400, detail) == "400: " + detail
    ensures ExceptionText(404, detail) == "404: " + detail
    ensures ExceptionText(413, detail) == "413: " + detail
  {
    assert NatToString(400) == "400" && NatToString(404) == "404" && NatToString(413) == "413";
  }

  /** `str()` of an `HTTPException`: its status code, a colon and its detail. */
  function ExceptionText(code: nat, detail: string): string {
    NatToString(code) + ": " + detail
  }

  /** `frame_count / fps if fps > 0 else 0` */
  function Duration(src: Capture): (d: real)
    ensures src.Fps() <= 0.0 ==> d == 0.0
    ensures src.Fps() > 0.0 ==> d * src.Fps() == src.FrameCount() as real
  {
    if src.Fps() > 0.0 then src.FrameCount() as real / src.Fps() else 0.0
  }

  /** The upload's metadata reply. */
  datatype UploadReply = UploadReply(projectId: string, duration: real, width: int, height: int, fps: real)

  /** The new project document. */
  function NewProject(filename: string): Project {
    Project(filename, Uploaded, Percent(0, 1), None, None, None)
  }

  /** `await file.read()` on an upload of `size` bytes whose stream is at
      `pos`: the number of bytes it returns (the rest of the content) and
      the position it leaves (the end). */
  function ReadRest(size: nat, pos: nat): (r: (nat, nat))
    ensures r.0 + Min(pos, size) == size && r.1 == Max(pos, size)
  {
    (if pos <= size then size - pos else 0, Max(pos, size))
  }

  /** The length of the content the route saves: that of its second read,
      made after the first read of the size checks. */
  function SavedSize(file: UploadFile): nat {
    ReadRest(file.size, ReadRest(file.size, 0).1).0
  }

  /** The first read returns the whole upload, so the second returns
      nothing and the file saved is always empty. */
  lemma SavedFileIsEmpty(file: UploadFile)
    ensures ReadRest(file.size, 0).0 == file.size
    ensures SavedSize(file) == 0
  {
  }

  /** `upload_video`. `projectId` is the fresh uuid and `opens(n)` the
      capture OpenCV opens on a saved file of `n` bytes; the file saved
      holds what the second read returned. Every `HTTPException` the route
      raises inside its `try` is caught by the blanket handler and
      re-raised as a 500 whose detail is the text of the original. */
  method UploadVideo(file: Option<UploadFile>, projectId: string, opens: nat -> Capture, store: ProjectStore)
    returns (r: HttpResult<UploadReply>)
    modifies store
    ensures r.HttpError? ==> r.code == 500 && store.docs == old(store.docs)
    ensures UploadRejection(file).Some? ==>
      r == HttpError(500, ExceptionText(UploadRejection(file).value.0, UploadRejection(file).value.1))
    ensures UploadRejection(file).None? && !opens(0).isOpen ==> r == HttpError(500, ExceptionText(400, "Invalid video file"))
    ensures UploadRejection(file).None? && opens(0).isOpen ==>
      && r == Answer(UploadReply(projectId, Duration(opens(0)), opens(0).width, opens(0).height, opens(0).fps))
      && store.docs == old(store.docs)[projectId := NewProject(file.value.filename)]
  {
    var rejection := UploadRejection(file);
    if rejection.Some? {
      return HttpError(500, ExceptionText(rejection.value.0, rejection.value.1));
    }
    var first := ReadRest(file.value.size, 0);
    var second := ReadRest(file.value.size, first.1);
    var saved := opens(second.0);
    SavedFileIsEmpty(file.value);
    if !saved.isOpen {
      return HttpError(500, ExceptionText(400, "Invalid video file"));
    }
    store.Insert(projectId, NewProject(file.value.filename));
    r := Answer(UploadReply(projectId, Duration(saved), saved.Width(), saved.Height(), saved.Fps()));
  }

  /** No rejection reaches the client with its own status code: an upload
      fails with 500 or succeeds. */
  lemma UploadFailsOnlyWith500(file: Option<UploadFile>)
    requires UploadRejection(file).Some?
    ensures var e := UploadRejection(file).value;
      StartsWith(ExceptionText(e.0, e.1), NatToString(e.0) + ": ") && EndsWith(ExceptionText(e.0, e.1), e.1)
  {
    var e := UploadRejection(file).value;
    var t := ExceptionText(e.0, e.1);
    assert t[..|NatToString(e.0) + ": "|] == NatToString(e.0) + ": ";
    assert t[|t| - |e.1|..] == e.1;
  }

  // ---------------------------------------------------------------------
  // GET /download/{id}: the offered file name.

  /** ASCII letters and digits (`str.isalnum` on ASCII text). */
  predicate IsAlnum(c: char) {
    ('a' <= c <= 'z') || ('A' <= c <= 'Z') || ('0' <= c <= '9')
  }

  /** The characters the download name keeps. */
  predicate Allowed(c: char) {
    IsAlnum(c) || c == '.' || c == '-' || c == '_'
  }

  /** `"".join(c for c in s if c.isalnum() or c in ".-_")` */
  function KeepAllowed(s: string): (r: string)
    ensures forall i | 0 <= i < |r| :: Allowed(r[i])
    ensures |r| <= |s|
  {
    if s == [] then []
    else (if Allowed(s[0]) then [s[0]] else []) + KeepAllowed(s[1..])
  }

  /** The filter keeps exactly the allowed characters of the text, in order:
      it distributes over concatenation and leaves an allowed text as it is. */
  lemma {:induction false} KeepAllowedAppend(a: string, b: string)
    ensures KeepAllowed(a + b) == KeepAllowed(a) + KeepAllowed(b)
    decreases |a|
  {
    if a == [] {
      assert a + b == b;
    } else {
      var head := if Allowed(a[0]) then [a[0]] else [];
      assert (a + b)[0] == a[0] && (a + b)[1..] == a[1..] + b;
      KeepAllowedAppend(a[1..], b);
      calc {
        KeepAllowed(a + b);
        head + KeepAllowed(a[1..] + b);
        head + (KeepAllowed(a[1..]) + KeepAllowed(b));
        (head + KeepAllowed(a[1..])) + KeepAllowed(b);
        KeepAllowed(a) + KeepAllowed(b);
      }
    }
  }

  lemma {:induction false} KeepAllowedFixes(s: string)
    requires forall i | 0 <= i < |s| :: Allowed(s[i])
    ensures KeepAllowed(s) == s
    decreases |s|
  {
    if s != [] {
      KeepAllowedFixes(s[1..]);
    }
  }

  lemma {:induction false} KeepAllowedMembers(s: string, c: char)
    ensures c in KeepAllowed(s) <==> c in s && Allowed(c)
    decreases |s|
  {
    if s != [] {
      KeepAllowedMembers(s[1..], c);
      assert c in s <==> c == s[0] || c in s[1..];
    }
  }

  /** Filtering twice is filtering once. */
  lemma KeepAllowedIdempotent(s: string)
    ensures KeepAllowed(KeepAllowed(s)) == KeepAllowed(s)
  {
    KeepAllowedFixes(KeepAllowed(s));
  }

  const DefaultStyle := "processed"

  /** The default style has only allowed characters. */
  lemma DefaultStyleKept()
    ensures KeepAllowed(DefaultStyle) == DefaultStyle
  {
    assert forall i | 0 <= i < |DefaultStyle| :: 'a' <= DefaultStyle[i] <= 'z';
    KeepAllowedFixes(DefaultStyle);
  }

  /** `project.art_style or 'processed'`: an absent or empty style falls
      back to "processed". */
  function StyleOrDefault(artStyle: Option<string>): string {
    if artStyle.None? || artStyle.value == "" then DefaultStyle else artStyle.value
  }

  /** The name a download is offered under: the filename up to its first
      '.', an underscore, the style and ".mp4", with every character other
      than letters, digits and `.-_` dropped. The result holds only those
      characters (so no '/' or quote), is the filtered pieces put together,
      and still ends in "_" + ... + ".mp4". */
  function SafeDownloadName(filename: string, artStyle: Option<string>): (r: string)
    ensures forall i | 0 <= i < |r| :: Allowed(r[i])
    ensures r == KeepAllowed(BeforeFirst(filename, '.')) + "_" + KeepAllowed(StyleOrDefault(artStyle)) + ".mp4"
    ensures EndsWith(r, ".mp4")
  {
    var pieces := BeforeFirst(filename, '.') + "_" + StyleOrDefault(artStyle) + ".mp4";
    KeepAllowedAppend(BeforeFirst(filename, '.') + "_" + StyleOrDefault(artStyle), ".mp4");
    KeepAllowedAppend(BeforeFirst(filename, '.') + "_", StyleOrDefault(artStyle));
    KeepAllowedAppend(BeforeFirst(filename, '.'), "_");
    KeepAllowedFixes("_");
    KeepAllowedFixes(".mp4");
    var r := KeepAllowed(pieces);
    EndsWithAppend(KeepAllowed(BeforeFirst(filename, '.')) + "_" + KeepAllowed(StyleOrDefault(artStyle)), ".mp4");
    r
  }

  /** Sanitising a sanitised name changes nothing. */
  lemma SafeDownloadNameIdempotent(filename: string, artStyle: Option<string>)
    ensures KeepAllowed(SafeDownloadName(filename, artStyle)) == SafeDownloadName(filename, artStyle)
  {
    KeepAllowedFixes(SafeDownloadName(filename, artStyle));
  }

  /** A clean file name and style come through unchanged. */
  lemma SafeDownloadNameOfCleanInput(filename: string, style: string)
    requires forall i | 0 <= i < |filename| :: Allowed(filename[i])
    requires style != [] && forall i | 0 <= i < |style| :: Allowed(style[i])
    ensures SafeDownloadName(filename, Some(style)) == BeforeFirst(filename, '.') + "_" + style + ".mp4"
  {
    var stem := BeforeFirst(filename, '.');
    assert forall i | 0 <= i < |stem| :: stem[i] == filename[i];
    KeepAllowedFixes(stem);
    KeepAllowedFixes(style);
  }

  /** A name without a style, or with an empty one, is offered as
      "<stem>_processed.mp4". */
  lemma SafeDownloadNameDefault(filename: string)
    ensures SafeDownloadName(filename, None) == SafeDownloadName(filename, Some(""))
    ensures SafeDownloadName(filename, None) == KeepAllowed(BeforeFirst(filename, '.')) + "_" + DefaultStyle + ".mp4"
  {
    DefaultStyleKept();
  }

  // ---------------------------------------------------------------------
  // GET /preview/{id}

  /** `[int(total_frames * i / 5) for i in range(5)]`. */
  function PreviewPositions(total: int): (ps: seq<int>)
    ensures |ps| == 5
  {
    seq(5, i requires 0 <= i < 5 => Trunc((total * i) as real / 5.0))
  }

  /** For a non-negative count the positions are `total * i div 5`: they
      start at 0, never decrease, and each lies before the last frame when
      there is one. A negative count gives positions truncated toward 0. */
  lemma PreviewPositionsShape(total: int)
    ensures var ps := PreviewPositions(total);
      && (0 <= total ==> forall i | 0 <= i < 5 :: ps[i] == total * i / 5)
      && (0 <= total ==> ps[0] == 0 && forall i, j | 0 <= i <= j < 5 :: ps[i] <= ps[j])
      && (0 < total ==> forall i | 0 <= i < 5 :: 0 <= ps[i] < total)
      && (total < 0 ==> forall i | 0 <= i < 5 :: total < ps[i] <= 0 && ps[i] == -((-total * i) / 5))
  {
    var ps := PreviewPositions(total);
    forall i | 0 <= i < 5
      ensures 0 <= total ==> ps[i] == total * i / 5
      ensures total < 0 ==> ps[i] == -((-total * i) / 5)
    {
      TruncFifth(total * i);
    }
    if 0 <= total {
      forall i, j | 0 <= i <= j < 5 ensures ps[i] <= ps[j] {
        assert total * i <= total * j;
      }
    }
  }

  /** `int(n / 5)`: truncation of a fifth toward zero. */
  lemma TruncFifth(n: int)
    ensures 0 <= n ==> Trunc(n as real / 5.0) == n / 5
    ensures n < 0 ==> Trunc(n as real / 5.0) == -((-n) / 5)
  {
    var q := if 0 <= n then n / 5 else (-n) / 5;
    var m := if 0 <= n then n else -n;
    assert m == 5 * q + m % 5;
    assert (m as real) / 5.0 == q as real + (m % 5) as real / 5.0;
  }

  /** The preview of one position: the frame read after seeking there, if
      any, encoded by `jpeg` (the resize to 320x240 and the JPEG and base64
      encoding are outside the model). */
  function PreviewAt(src: Capture, pos: int, jpeg: Frame -> string): Option<string> {
    var s := src.StreamFrom(pos);
    if s == [] then None else Some("data:image/jpeg;base64," + jpeg(s[0]))
  }

  /** The entries present among `opts`, in order. */
  function Present(opts: seq<Option<string>>): (r: seq<string>)
    ensures |r| <= |opts|
  {
    if opts == [] then [] else Present(opts[..|opts| - 1]) + (if opts[|opts| - 1].Some? then [opts[|opts| - 1].value] else [])
  }

  /** The previews of the five positions, in order, skipping positions the
      capture cannot read. */
  function Previews(src: Capture, jpeg: Frame -> string): seq<string> {
    Present(seq(5, i requires 0 <= i < 5 => PreviewAt(src, PreviewPositions(src.FrameCount())[i], jpeg)))
  }

  /** `get_video_preview`: a missing upload is a 404 and an unopened one a
      400, both re-raised as 500 by the blanket handler; otherwise the frames
      at the five positions that can be read. */
  method GetVideoPreview(input: Option<Capture>, jpeg: Frame -> string) returns (r: HttpResult<seq<string>>)
    ensures input.None? ==> r == HttpError(500, ExceptionText(404, "Video file not found"))
    ensures input.Some? && !input.value.isOpen ==> r == HttpError(500, ExceptionText(400, "Cannot open video"))
    ensures input.Some? && input.value.isOpen ==> r == Answer(Previews(input.value, jpeg)) && |r.body| <= 5
  {
    if input.None? {
      return HttpError(500, ExceptionText(404, "Video file not found"));
    }
    var cap := input.value;
    if !cap.isOpen {
      return HttpError(500, ExceptionText(400, "Cannot open video"));
    }
    var positions := PreviewPositions(cap.FrameCount());
    ghost var opts := seq(5, i requires 0 <= i < 5 => PreviewAt(cap, positions[i], jpeg));
    var frames: seq<string> := [];
    for k := 0 to 5
      invariant frames == Present(opts[..k])
    {
      var s := cap.StreamFrom(positions[k]);
      if s != [] {
        frames := frames + ["data:image/jpeg;base64," + jpeg(s[0])];
      }
      assert opts[..k + 1][..k] == opts[..k];
    }
    assert opts[..5] == opts;
    r := Answer(frames);
  }

  /** When the capture reads every frame it reports, all five previews are
      there, and the `i`-th is of frame `total * i div 5`. */
  lemma PreviewsComplete(src: Capture, jpeg: Frame -> string)
    requires src.isOpen && 0 < src.frameCount <= |src.frames|
    ensures forall i | 0 <= i < 5 :: 0 <= src.frameCount * i / 5 < src.frameCount
    ensures var ps := Previews(src, jpeg);
      |ps| == 5 && forall i | 0 <= i < 5 :: ps[i] == "data:image/jpeg;base64," + jpeg(src.frames[src.frameCount * i / 5])
  {
    var total := src.FrameCount();
    PreviewPositionsShape(total);
    var ps := PreviewPositions(total);
    forall i | 0 <= i < 5 ensures 0 <= total * i / 5 < total && ps[i] == total * i / 5 {
      assert ps[i] == total * i / 5;
    }
    PreviewsAt(src, jpeg);
  }

  /** Five positions within the frames give five previews, in order. */
  lemma PreviewsAt(src: Capture, jpeg: Frame -> string)
    requires src.isOpen && forall i | 0 <= i < 5 :: 0 <= PreviewPositions(src.FrameCount())[i] < |src.frames|
    ensures Previews(src, jpeg)
         == seq(5, i requires 0 <= i < 5 => "data:image/jpeg;base64," + jpeg(src.frames[PreviewPositions(src.FrameCount())[i]]))
  {
    var ps := PreviewPositions(src.FrameCount());
    var opts := seq(5, i requires 0 <= i < 5 => PreviewAt(src, ps[i], jpeg));
    forall i | 0 <= i < 5 ensures opts[i] == Some("data:image/jpeg;base64," + jpeg(src.frames[ps[i]])) {
      assert src.StreamFrom(ps[i])[0] == src.frames[ps[i]];
    }
    PresentAll(opts);
  }

  lemma {:induction false} PresentAll(opts: seq<Option<string>>)
    requires forall i | 0 <= i < |opts| :: opts[i].Some?
    ensures |Present(opts)| == |opts| && forall i | 0 <= i < |opts| :: Present(opts)[i] == opts[i].value
    decreases |opts|
  {
    if opts != [] {
      PresentAll(opts[..|opts| - 1]);
    }
  }
}
