/** Joining the chunk files into the output (backend/server.py): the concat
    manifest for FFmpeg, the chain re-encode → stream copy → OpenCV, the
    OpenCV combiner `combine_chunks_opencv` with its own last resort (copy
    the largest chunk), and the removal of the temporaries afterwards.

    FFmpeg is not modelled: each run is a value saying how it ended and what
    it left at the output path. */
module Concat {
  import opened Common
  import opened Media

  // ---------------------------------------------------------------------
  // The manifest.

  /** `f"file '{path}'\n"` */
  function ManifestLine(p: string): string {
    "file '" + p + "'\n"
  }

  /** The manifest's text: one line per chunk, in chunk order. */
  function ManifestText(paths: seq<string>): string {
    if paths == [] then "" else ManifestText(paths[..|paths| - 1]) + ManifestLine(paths[|paths| - 1])
  }

  lemma {:induction false} ManifestCons(p: string, ps: seq<string>)
    ensures ManifestText([p] + ps) == ManifestLine(p) + ManifestText(ps)
    decreases |ps|
  {
    if ps != [] {
      var init := ps[..|ps| - 1];
      assert ([p] + ps)[..|ps|] == [p] + init;
      ManifestCons(p, init);
    }
  }

  /** How FFmpeg's concat demuxer reads the manifest back: lines of the
      form `file '<path>'`, the path ending at the first quote. */
  function ParseManifest(text: string): Option<seq<string>>
    decreases |text|
  {
    if text == [] then Some([])
    else if !StartsWith(text, "file '") then None
    else
      var body := text[6..];
      var path := BeforeFirst(body, '\'');
      if |path| + 1 < |body| && body[|path| + 1] == '\n' then
        match ParseManifest(body[|path| + 2..])
        case None => None
        case Some(ps) => Some([path] + ps)
      else None
  }

  lemma {:induction false} BeforeFirstOf(p: string, c: char, rest: string)
    requires c !in p
    ensures BeforeFirst(p + [c] + rest, c) == p
    decreases |p|
  {
    if p != [] {
      assert (p + [c] + rest)[1..] == p[1..] + [c] + rest;
      BeforeFirstOf(p[1..], c, rest);
    }
  }

  /** A line for a path without a quote reads back as that path, followed
      by whatever the rest of the text holds. */
  lemma ParseLine(p: string, rest: string)
    requires '\'' !in p
    ensures ParseManifest(ManifestLine(p) + rest) ==
      match ParseManifest(rest)
      case None => None
      case Some(ps) => Some([p] + ps)
  {
    var text := ManifestLine(p) + rest;
    var body := p + ['\''] + ("\n" + rest);
    assert text == "file '" + body;
    assert text[..6] == "file '" && text[6..] == body;
    BeforeFirstOf(p, '\'', "\n" + rest);
    assert body[|p| + 1] == '\n' && body[|p| + 2..] == rest;
  }

  /** The manifest lists exactly the chunks, in order, as long as no path
      holds a quote (the source does not escape them). */
  lemma {:induction false} ManifestRoundTrip(paths: seq<string>)
    requires forall k | 0 <= k < |paths| :: '\'' !in paths[k]
    ensures ParseManifest(ManifestText(paths)) == Some(paths)
    decreases |paths|
  {
    if paths != [] {
      var p := paths[0];
      var ps := paths[1..];
      assert paths == [p] + ps;
      ManifestCons(p, ps);
      ParseLine(p, ManifestText(ps));
      ManifestRoundTrip(ps);
    }
  }

  /** The manifest file is written line by line. */
  method WriteManifest(paths: seq<string>, manifest: string, disk: Disk)
    modifies disk
    ensures disk.files == old(disk.files)[manifest := Text(ManifestText(paths))]
  {
    var text := "";
    for k := 0 to |paths|
      invariant text == ManifestText(paths[..k])
    {
      assert paths[..k + 1][..k] == paths[..k];
      text := text + ManifestLine(paths[k]);
    }
    assert paths[..|paths|] == paths;
    disk.Write(manifest, Text(text));
  }

  // ---------------------------------------------------------------------
  // The OpenCV combiner.

  /** The frames `cv2.VideoCapture` reads back from a path. */
  function ReadBack(files: map<string, Stored>, p: string): seq<Frame> {
    if p in files then files[p].Frames() else []
  }

  /** The frame size a capture of the path reports (0 when it does not open). */
  function ProbeDims(files: map<string, Stored>, p: string): (int, int) {
    if p in files && files[p].Video? then (files[p].width, files[p].height) else (0, 0)
  }

  /** All frames of the chunks, chunk after chunk. */
  function Joined(files: map<string, Stored>, paths: seq<string>): seq<Frame> {
    if paths == [] then [] else Joined(files, paths[..|paths| - 1]) + ReadBack(files, paths[|paths| - 1])
  }

  lemma {:induction false} JoinedAppend(files: map<string, Stored>, a: seq<string>, b: seq<string>)
    ensures Joined(files, a + b) == Joined(files, a) + Joined(files, b)
    decreases |b|
  {
    if b == [] {
      assert a + b == a;
    } else {
      assert (a + b)[..|a + b| - 1] == a + b[..|b| - 1];
      assert (a + b)[|a + b| - 1] == b[|b| - 1];
      JoinedAppend(files, a, b[..|b| - 1]);
    }
  }

  /** Chunk `k` occupies the frames of the combined video from the end of the
      chunks before it: nothing is reordered, dropped or duplicated. */
  lemma JoinedPlacesChunk(files: map<string, Stored>, paths: seq<string>, k: nat)
    requires k < |paths|
    ensures |Joined(files, paths[..k])| + |ReadBack(files, paths[k])| <= |Joined(files, paths)|
    ensures Joined(files, paths)[|Joined(files, paths[..k])|..|Joined(files, paths[..k])| + |ReadBack(files, paths[k])|]
            == ReadBack(files, paths[k])
  {
    assert paths == paths[..k + 1] + paths[k + 1..];
    JoinedAppend(files, paths[..k + 1], paths[k + 1..]);
    assert paths[..k + 1][..k] == paths[..k];
  }

  /** `max(temp_outputs, key=size)`: the first of the largest chunks. */
  function FirstLargest(files: map<string, Stored>, paths: seq<string>): (i: nat)
    requires paths != []
    requires forall k | 0 <= k < |paths| :: paths[k] in files
    ensures i < |paths|
    ensures forall k | 0 <= k < |paths| :: files[paths[k]].Size() <= files[paths[i]].Size()
    ensures forall k | 0 <= k < i :: files[paths[k]].Size() < files[paths[i]].Size()
  {
    if |paths| == 1 then 0
    else
      var init := paths[..|paths| - 1];
      var j := FirstLargest(files, init);
      assert forall k | 0 <= k < |init| :: init[k] == paths[k];
      if files[init[j]].Size() < files[paths[|paths| - 1]].Size() then |paths| - 1 else j
  }

  /** The disk after `combine_chunks_opencv`. An empty list raises, and the
      handler's copy is skipped for an empty list. `fault` is an OpenCV
      error raised before the writer is created: the handler then copies
      the first largest chunk to the output. Otherwise the writer is mp4v at
      the output if that opens, else XVID at the path with ".mp4" replaced
      by ".avi"; a writer that did not open drops every frame. */
  function CombineFiles(files: map<string, Stored>, chunks: seq<string>, output: string,
                        fault: Option<string>, tk: Toolkit): map<string, Stored>
    requires forall k | 0 <= k < |chunks| :: chunks[k] in files
  {
    if chunks == [] then files
    else if fault.Some? then files[output := files[chunks[FirstLargest(files, chunks)]]]
    else
      var dims := ProbeDims(files, chunks[0]);
      var frames := Joined(files, chunks);
      var v := Video(dims.0, dims.1, frames, tk.sizeOf(frames));
      if tk.writerOpens(Mp4v, output) then files[output := v]
      else if tk.writerOpens(Xvid, Mp4ToAvi(output)) then files[Mp4ToAvi(output) := v]
      else files
  }

  /** The combiner only ever writes the output or its ".avi" sibling, and
      when the mp4v writer does not open and nothing raised, the output
      itself is left as it was. */
  lemma CombineTouchesOnlyOutput(files: map<string, Stored>, chunks: seq<string>, output: string,
                                 fault: Option<string>, tk: Toolkit)
    requires forall k | 0 <= k < |chunks| :: chunks[k] in files
    ensures var after := CombineFiles(files, chunks, output, fault, tk);
      forall p | p != output && p != Mp4ToAvi(output) ::
        (p in after <==> p in files) && (p in files ==> after[p] == files[p])
    ensures EndsWith(output, ".mp4") && fault.None? && chunks != [] && !tk.writerOpens(Mp4v, output) ==>
      var after := CombineFiles(files, chunks, output, fault, tk);
      (output in after <==> output in files) && (output in files ==> after[output] == files[output])
  {
    if EndsWith(output, ".mp4") {
      Mp4ToAviMovesMp4Paths(output);
    }
  }

  /** With the mp4v writer open, the output holds every chunk's frames in
      order at the first chunk's frame size; after a fault it is a copy of a
      chunk no other chunk is larger than. */
  lemma CombineOutput(files: map<string, Stored>, chunks: seq<string>, output: string,
                      fault: Option<string>, tk: Toolkit)
    requires chunks != []
    requires forall k | 0 <= k < |chunks| :: chunks[k] in files
    ensures var after := CombineFiles(files, chunks, output, fault, tk);
      fault.None? && tk.writerOpens(Mp4v, output) ==>
        output in after && after[output].Frames() == Joined(files, chunks)
        && ProbeDims(after, output) == ProbeDims(files, chunks[0])
    ensures var after := CombineFiles(files, chunks, output, fault, tk);
      fault.Some? ==>
        output in after
        && (exists k | 0 <= k < |chunks| :: after[output] == files[chunks[k]])
        && forall k | 0 <= k < |chunks| :: files[chunks[k]].Size() <= after[output].Size()
  {
    if fault.Some? {
      var i := FirstLargest(files, chunks);
      assert CombineFiles(files, chunks, output, fault, tk)[output] == files[chunks[i]];
    }
  }

  /** `combine_chunks_opencv`: the chunks are read one after the other and
      every frame goes to the writer. */
  method CombineChunksOpencv(chunks: seq<string>, output: string, fault: Option<string>,
                             tk: Toolkit, disk: Disk)
    requires forall k | 0 <= k < |chunks| :: chunks[k] in disk.files
    modifies disk
    ensures disk.files == CombineFiles(old(disk.files), chunks, output, fault, tk)
  {
    if chunks == [] {
      return;
    }
    if fault.Some? {
      var i := FirstLargest(disk.files, chunks);
      disk.Copy(chunks[i], output);
      return;
    }
    var dims := ProbeDims(disk.files, chunks[0]);
    var target: Option<string> := None;
    if tk.writerOpens(Mp4v, output) {
      target := Some(output);
    } else if tk.writerOpens(Xvid, Mp4ToAvi(output)) {
      target := Some(Mp4ToAvi(output));
    }
    var received: seq<Frame> := [];
    for k := 0 to |chunks|
      invariant received == Joined(disk.files, chunks[..k])
    {
      var fs := ReadBack(disk.files, chunks[k]);
      var j := 0;
      while j < |fs|
        invariant j <= |fs|
        invariant received == Joined(disk.files, chunks[..k]) + fs[..j]
      {
        received := received + [fs[j]];
        j := j + 1;
      }
      assert fs[..j] == fs;
      assert chunks[..k + 1][..k] == chunks[..k];
    }
    assert chunks[..|chunks|] == chunks;
    if target.Some? {
      disk.Write(target.value, Video(dims.0, dims.1, received, tk.sizeOf(received)));
    }
  }

  // ---------------------------------------------------------------------
  // The FFmpeg chain.

  /** How one `subprocess.run` of FFmpeg ended, and what it left at the
      output path (FFmpeg overwrites the output early, so a failed or
      interrupted run may leave a partial file). */
  datatype ToolRun = Finished(returnCode: int, leaves: Option<Stored>)
                   | TimedOut(leaves: Option<Stored>)
                   | Crashed(error: string)
  {
    predicate Succeeded() { Finished? && returnCode == 0 }

    function Left(): Option<Stored> { if Crashed? then None else leaves }
  }

  datatype Strategy = ReEncode | StreamCopy | OpencvCombine

  /** The strategies that run, in order: the libx264 re-encode; after a
      non-zero exit the stream copy; after a non-zero exit of that, a time-out
      or a failure to run, the OpenCV combiner. A time-out or a failure of the
      first run skips the stream copy. */
  function Tried(reencode: ToolRun, copy: ToolRun): seq<Strategy> {
    if reencode.Succeeded() then [ReEncode]
    else if reencode.Finished? then
      if copy.Succeeded() then [ReEncode, StreamCopy] else [ReEncode, StreamCopy, OpencvCombine]
    else [ReEncode, OpencvCombine]
  }

  function Rank(s: Strategy): nat {
    match s
    case ReEncode => 0
    case StreamCopy => 1
    case OpencvCombine => 2
  }

  /** The chain starts with the re-encode, never goes back to an earlier
      strategy, and ends at the first strategy that succeeded; the OpenCV
      combiner runs exactly when neither FFmpeg run succeeded. */
  lemma TriedOrder(reencode: ToolRun, copy: ToolRun)
    ensures var t := Tried(reencode, copy);
      && 1 <= |t| <= 3 && t[0] == ReEncode
      && (forall k, l | 0 <= k < l < |t| :: Rank(t[k]) < Rank(t[l]))
      && (OpencvCombine in t <==> !reencode.Succeeded() && !(reencode.Finished? && copy.Succeeded()))
      && (StreamCopy in t <==> reencode.Finished? && !reencode.Succeeded())
      && (t[|t| - 1] == ReEncode <==> reencode.Succeeded())
  {
  }

  /** The result of a run at the output path. */
  function Leave(files: map<string, Stored>, p: string, left: Option<Stored>): map<string, Stored> {
    if left.Some? then files[p := left.value] else files
  }

  /** The disk after the try/except block around the FFmpeg runs. */
  function ChainFiles(files: map<string, Stored>, chunks: seq<string>, output: string,
                      reencode: ToolRun, copy: ToolRun, fault: Option<string>, tk: Toolkit): map<string, Stored>
    requires forall k | 0 <= k < |chunks| :: chunks[k] in files
  {
    var first := Leave(files, output, reencode.Left());
    if reencode.Succeeded() then first
    else if reencode.Finished? then
      var second := Leave(first, output, copy.Left());
      if copy.Succeeded() then second else CombineFiles(second, chunks, output, fault, tk)
    else CombineFiles(first, chunks, output, fault, tk)
  }

  /** The chain writes nothing but the output and its ".avi" sibling; with
      the re-encode succeeding, the output is what it left. */
  lemma ChainTouchesOnlyOutput(files: map<string, Stored>, chunks: seq<string>, output: string,
                               reencode: ToolRun, copy: ToolRun, fault: Option<string>, tk: Toolkit)
    requires forall k | 0 <= k < |chunks| :: chunks[k] in files
    ensures var after := ChainFiles(files, chunks, output, reencode, copy, fault, tk);
      forall p | p != output && p != Mp4ToAvi(output) ::
        (p in after <==> p in files) && (p in files ==> after[p] == files[p])
    ensures reencode.Succeeded() ==>
      ChainFiles(files, chunks, output, reencode, copy, fault, tk) == Leave(files, output, reencode.leaves)
  {
    var first := Leave(files, output, reencode.Left());
    var second := Leave(first, output, copy.Left());
    CombineTouchesOnlyOutput(first, chunks, output, fault, tk);
    CombineTouchesOnlyOutput(second, chunks, output, fault, tk);
  }

  /** The chain as the job runs it. */
  method RunChain(chunks: seq<string>, output: string, reencode: ToolRun, copy: ToolRun,
                  fault: Option<string>, tk: Toolkit, disk: Disk)
    returns (tried: seq<Strategy>)
    requires forall k | 0 <= k < |chunks| :: chunks[k] in disk.files
    modifies disk
    ensures tried == Tried(reencode, copy)
    ensures disk.files == ChainFiles(old(disk.files), chunks, output, reencode, copy, fault, tk)
  {
    tried := [ReEncode];
    if reencode.Left().Some? {
      disk.Write(output, reencode.Left().value);
    }
    if reencode.Succeeded() {
      return;
    }
    if reencode.Finished? {
      tried := tried + [StreamCopy];
      if copy.Left().Some? {
        disk.Write(output, copy.Left().value);
      }
      if copy.Succeeded() {
        return;
      }
    }
    tried := tried + [OpencvCombine];
    CombineChunksOpencv(chunks, output, fault, tk, disk);
  }

  // ---------------------------------------------------------------------
  // The whole step for more than one chunk.

  /** `files` without the given paths. */
  function Without(files: map<string, Stored>, paths: seq<string>): (r: map<string, Stored>)
    ensures forall p :: p in r <==> p in files && p !in paths
    ensures forall p | p in r :: r[p] == files[p]
  {
    if paths == [] then files
    else
      var init := paths[..|paths| - 1];
      assert forall p :: p in paths <==> p in init || p == paths[|paths| - 1];
      Without(files, init) - {paths[|paths| - 1]}
  }

  /** The temporaries are removed one by one. */
  method RemoveAll(paths: seq<string>, disk: Disk)
    modifies disk
    ensures disk.files == Without(old(disk.files), paths)
  {
    for k := 0 to |paths|
      invariant disk.files == Without(old(disk.files), paths[..k])
    {
      assert paths[..k + 1][..k] == paths[..k];
      disk.Unlink(paths[k]);
    }
    assert paths[..|paths|] == paths;
  }

  /** The disk after the multi-chunk branch: manifest, chain, cleanup. */
  function ConcatFiles(files: map<string, Stored>, chunks: seq<string>, output: string, manifest: string,
                       reencode: ToolRun, copy: ToolRun, fault: Option<string>, tk: Toolkit): map<string, Stored>
    requires forall k | 0 <= k < |chunks| :: chunks[k] in files
  {
    var listed := files[manifest := Text(ManifestText(chunks))];
    Without(ChainFiles(listed, chunks, output, reencode, copy, fault, tk), chunks + [manifest])
  }

  /** Afterwards no chunk and no manifest remain, and every other file but
      the output and its ".avi" sibling is as it was. */
  lemma ConcatCleansUp(files: map<string, Stored>, chunks: seq<string>, output: string, manifest: string,
                       reencode: ToolRun, copy: ToolRun, fault: Option<string>, tk: Toolkit)
    requires forall k | 0 <= k < |chunks| :: chunks[k] in files
    ensures var after := ConcatFiles(files, chunks, output, manifest, reencode, copy, fault, tk);
      && manifest !in after
      && (forall k | 0 <= k < |chunks| :: chunks[k] !in after)
      && forall p | p != output && p != Mp4ToAvi(output) && p != manifest && p !in chunks ::
           (p in after <==> p in files) && (p in files ==> after[p] == files[p])
  {
    var listed := files[manifest := Text(ManifestText(chunks))];
    ChainTouchesOnlyOutput(listed, chunks, output, reencode, copy, fault, tk);
    assert forall k | 0 <= k < |chunks| :: chunks[k] in chunks + [manifest];
    assert manifest in chunks + [manifest];
  }

  /** The `len(temp_outputs) > 1` branch of the job: write the manifest, run
      the chain, then remove every chunk and the manifest. */
  method ConcatenateChunks(chunks: seq<string>, output: string, manifest: string,
                           reencode: ToolRun, copy: ToolRun, fault: Option<string>, tk: Toolkit, disk: Disk)
    returns (tried: seq<Strategy>)
    requires forall k | 0 <= k < |chunks| :: chunks[k] in disk.files
    modifies disk
    ensures tried == Tried(reencode, copy)
    ensures disk.files == ConcatFiles(old(disk.files), chunks, output, manifest, reencode, copy, fault, tk)
  {
    WriteManifest(chunks, manifest, disk);
    tried := RunChain(chunks, output, reencode, copy, fault, tk, disk);
    RemoveAll(chunks + [manifest], disk);
  }
}
