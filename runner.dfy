/** `process_video_background` (backend/server.py): one attempt finds the
    upload, plans the chunks, encodes them one after the other, joins them
    into the output and checks its size; up to three attempts are made,
    with a "retrying" record between them and a "failed" record at the end.

    The world outside the process is a parameter of each attempt: the
    capture of the uploaded file (or none when no upload matches the
    project), the two FFmpeg runs and a possible OpenCV fault of the
    combiner. The clock gives the time of each attempt's timestamped
    record; the waits between attempts are not modelled. */
module JobRunner {
  import opened Common
  import opened Media
  import opened Progress
  import opened Planner
  import opened Names
  import opened ChunkStatus
  import opened ChunkEncoder
  import opened Concat

  /** The parameters the route hands to the background job. */
  datatype Job = Job(id: string, style: string, intensity: real, crop: Option<Crop>,
                     trim: Option<Trim>, resize: Option<Resize>)

  /** What one attempt finds outside the process. */
  datatype World = World(input: Option<Capture>, reencode: ToolRun, copy: ToolRun, fault: Option<string>)

  function Output(root: string, job: Job): string {
    OutputPath(root, job.id, job.style)
  }

  /** The frame window, from the capture's reported frame count and rate. */
  function Window(src: Capture, trim: Option<Trim>): Outcome<(int, int)> {
    TrimWindow(src.FrameCount(), src.Fps(), trim)
  }

  // ---------------------------------------------------------------------
  // Status records of the job.

  const ChunkLabel := "Processing chunk "
  const StyleLabel := " - "
  const EffectLabel := " effect"

  /** The record before chunk `k` (numbered from 0) that starts at frame `lo`. */
  function StartRecord(style: string, start: int, end: int, k: nat, lo: int): StatusRecord
    requires start < end
  {
    StatusRecord(Processing, ChunkStartProgress(start, end, lo),
                 ChunkLabel + NatToString(k + 1) + StyleLabel + style + EffectLabel, None)
  }

  const FinalizingRecord := StatusRecord(Processing, Percent(95, 1), "Finalizing video...", None)

  function CompletedRecord(now: real): StatusRecord {
    StatusRecord(Completed, Percent(100, 1), "Processing completed successfully!", Some(now))
  }

  /** The record after the `attempt`-th failure when another attempt follows:
      the wait is `2 ** attempt` seconds. */
  function RetryRecord(attempt: nat, now: real): StatusRecord {
    StatusRecord(Retrying, Percent(0, 1),
                 "Error occurred, retrying in " + NatToString(Pow2(attempt)) + "s... (attempt "
                 + NatToString(attempt) + "/3)", Some(now))
  }

  function GaveUpRecord(error: string, now: real): StatusRecord {
    StatusRecord(Failed, Percent(0, 1), "Processing failed after 3 attempts: " + error, Some(now))
  }

  /** The waits before the second and the third attempt are 2 and 4 seconds. */
  lemma RetryWaits(now: real)
    ensures RetryRecord(1, now).message == "Error occurred, retrying in " + "2" + "s... (attempt " + "1" + "/3)"
    ensures RetryRecord(2, now).message == "Error occurred, retrying in " + "4" + "s... (attempt " + "2" + "/3)"
  {
    assert Pow2(1) == 2 && Pow2(2) == 4;
    assert NatToString(2) == "2" && NatToString(4) == "4";
    assert NatToString(1) == "1";
  }

  // ---------------------------------------------------------------------
  // One chunk of the attempt.

  /** The run of the chunk `r` of the job, written to `path`. */
  function RunOf(src: Capture, job: Job, r: Range, path: string, tk: Toolkit): ChunkRun {
    ChunkRunOf(src, path, r.lo, r.hi, job.style, job.intensity, job.crop, job.resize, tk)
  }

  /** The runs of every chunk of the plan, chunk `j` going to the `j`-th
      chunk file. */
  function ChunkRuns(src: Capture, job: Job, root: string, plan: seq<Range>, tk: Toolkit): (runs: seq<ChunkRun>)
    ensures |runs| == |plan|
  {
    if plan == [] then []
    else ChunkRuns(src, job, root, plan[..|plan| - 1], tk)
         + [RunOf(src, job, plan[|plan| - 1], ChunkPath(root, job.id, |plan| - 1), tk)]
  }

  lemma {:induction false} ChunkRunsAt(src: Capture, job: Job, root: string, plan: seq<Range>, tk: Toolkit, k: nat)
    requires k < |plan|
    ensures ChunkRuns(src, job, root, plan, tk)[k] == RunOf(src, job, plan[k], ChunkPath(root, job.id, k), tk)
  {
    if k < |plan| - 1 {
      ChunkRunsAt(src, job, root, plan[..|plan| - 1], tk, k);
    }
  }

  /** The record a chunk of `total` frames leaves in the status dictionary,
      `begin` being the one written before it. */
  function ChunkEndRecord(run: ChunkRun, style: string, total: int, begin: StatusRecord): StatusRecord
    requires 0 < total
  {
    if !run.opens then FailureRecord(CannotOpen)
    else if run.encoded.failure.Some? then FailureRecord(run.encoded.failure.value)
    else if run.read == 0 then begin
    else BatchRecord(style, run.read, total)
  }

  /** The record the chunk `k` of the plan ends with, `runs` being the
      chunks' runs. */
  function EndOf(job: Job, start: int, end: int, plan: seq<Range>, runs: seq<ChunkRun>, k: nat): StatusRecord
    requires |runs| == |plan| && k < |plan| && start <= plan[k].lo < plan[k].hi <= end
  {
    ChunkEndRecord(runs[k], job.style, plan[k].hi - plan[k].lo, StartRecord(job.style, start, end, k, plan[k].lo))
  }

  /** `runs` are the runs of the chunks of `plan`. */
  predicate RunsOf(src: Capture, job: Job, root: string, plan: seq<Range>, tk: Toolkit, runs: seq<ChunkRun>) {
    && |runs| == |plan|
    && forall j {:trigger RunOf(src, job, plan[j], ChunkPath(root, job.id, j), tk)} | 0 <= j < |plan| ::
         runs[j] == RunOf(src, job, plan[j], ChunkPath(root, job.id, j), tk)
  }

  lemma ChunkRunsAre(src: Capture, job: Job, root: string, plan: seq<Range>, tk: Toolkit)
    ensures RunsOf(src, job, root, plan, tk, ChunkRuns(src, job, root, plan, tk))
  {
    forall j | 0 <= j < |plan|
      ensures ChunkRuns(src, job, root, plan, tk)[j] == RunOf(src, job, plan[j], ChunkPath(root, job.id, j), tk)
    {
      ChunkRunsAt(src, job, root, plan, tk, j);
    }
  }

  /** `ends` are the records the chunks of `plan`, whose runs are `runs`,
      end with. */
  predicate EndsOf(job: Job, start: int, end: int, plan: seq<Range>, runs: seq<ChunkRun>, ends: seq<StatusRecord>)
    requires |runs| == |plan| && forall j | 0 <= j < |plan| :: start <= plan[j].lo < plan[j].hi <= end
  {
    && |ends| == |plan|
    && forall j {:trigger EndOf(job, start, end, plan, runs, j)} | 0 <= j < |plan| ::
         ends[j] == EndOf(job, start, end, plan, runs, j)
  }

  /** The disk after the first `k` chunks. */
  function ChunksDisk(files: map<string, Stored>, runs: seq<ChunkRun>, root: string, id: string, k: nat,
                      tk: Toolkit): map<string, Stored>
    requires k <= |runs|
  {
    if k == 0 then files
    else ChunkDisk(ChunksDisk(files, runs, root, id, k - 1, tk), runs[k - 1], ChunkPath(root, id, k - 1), tk)
  }

  /** The chunk files of the first `n` chunks. */
  function TempPaths(root: string, id: string, n: nat): (ps: seq<string>)
    ensures |ps| == n && forall j | 0 <= j < n :: ps[j] == ChunkPath(root, id, j)
  {
    seq(n, j requires 0 <= j < n => ChunkPath(root, id, j))
  }

  /** The first of the first `k` chunks that does not succeed, if any. */
  function FirstFailure(runs: seq<ChunkRun>, k: nat): (f: Option<nat>)
    requires k <= |runs|
    ensures f.Some? ==> f.value < k
  {
    if k == 0 then None
    else match FirstFailure(runs, k - 1)
      case Some(i) => Some(i)
      case None => if runs[k - 1].Succeeds() then None else Some(k - 1)
  }

  /** The chunk named is the first that fails; none is named exactly when
      all of them succeed. */
  lemma {:induction false} FirstFailureSpec(runs: seq<ChunkRun>, k: nat)
    requires k <= |runs|
    ensures var f := FirstFailure(runs, k);
      && (f.Some? ==> !runs[f.value].Succeeds() && forall j | 0 <= j < f.value :: runs[j].Succeeds())
      && (f.None? <==> forall j | 0 <= j < k :: runs[j].Succeeds())
  {
    if k > 0 {
      FirstFailureSpec(runs, k - 1);
    }
  }

  /** Once a chunk has failed, later ones do not change the verdict. */
  lemma {:induction false} FirstFailureSticky(runs: seq<ChunkRun>, k: nat, m: nat)
    requires k <= m <= |runs|
    requires FirstFailure(runs, k).Some?
    ensures FirstFailure(runs, m) == FirstFailure(runs, k)
    decreases m - k
  {
    if k < m {
      FirstFailureSticky(runs, k, m - 1);
    }
  }

  /** Every successful chunk left its file, and a later chunk never
      removes an earlier one's file. */
  lemma {:induction false} ChunksDiskKeepsTemps(files: map<string, Stored>, runs: seq<ChunkRun>, root: string,
                                                id: string, k: nat, tk: Toolkit)
    requires k <= |runs|
    requires FirstFailure(runs, k).None?
    ensures forall j | 0 <= j < k :: ChunkPath(root, id, j) in ChunksDisk(files, runs, root, id, k, tk)
  {
    if k > 0 {
      ChunksDiskKeepsTemps(files, runs, root, id, k - 1, tk);
      var last := ChunkPath(root, id, k - 1);
      forall j | 0 <= j < k - 1 ensures ChunkPath(root, id, j) != last {
        if ChunkPath(root, id, j) == last {
          ChunkPathInjective(root, id, j, k - 1);
        }
      }
    }
  }

  /** A chunk changes no file but its own. */
  lemma {:induction false} ChunksDiskFrame(files: map<string, Stored>, runs: seq<ChunkRun>, root: string,
                                           id: string, k: nat, tk: Toolkit, p: string)
    requires k <= |runs|
    requires forall j | 0 <= j < k :: p != ChunkPath(root, id, j)
    ensures p in ChunksDisk(files, runs, root, id, k, tk) <==> p in files
    ensures p in files ==> ChunksDisk(files, runs, root, id, k, tk)[p] == files[p]
  {
    if k > 0 {
      ChunksDiskFrame(files, runs, root, id, k - 1, tk, p);
    }
  }

  lemma TempPathsAppend(root: string, id: string, k: nat)
    ensures TempPaths(root, id, k + 1) == TempPaths(root, id, k) + [ChunkPath(root, id, k)]
  {
  }

  lemma TempsAreNotOutput(root: string, job: Job, n: nat)
    ensures forall j | 0 <= j < n :: TempPaths(root, job.id, n)[j] != Output(root, job)
  {
    forall j | 0 <= j < n ensures ChunkPath(root, job.id, j) != Output(root, job) {
      PathsDistinct(root, job.id, job.style, j);
    }
  }

  // ---------------------------------------------------------------------
  // The end of the attempt.

  /** The disk after the step that joins the first `n` chunks: the old
      output is removed, several chunks are concatenated, a single chunk is
      copied to the output and removed. */
  function FinishFiles(files: map<string, Stored>, root: string, job: Job, n: nat, world: World,
                       tk: Toolkit): map<string, Stored>
    requires forall j | 0 <= j < n :: ChunkPath(root, job.id, j) in files
  {
    var output := Output(root, job);
    var temps := TempPaths(root, job.id, n);
    TempsAreNotOutput(root, job, n);
    var cleared := files - {output};
    if n > 1 then ConcatFiles(cleared, temps, output, ConcatPath(root, job.id), world.reencode, world.copy, world.fault, tk)
    else if n == 1 then cleared[output := cleared[temps[0]]] - {temps[0]}
    else cleared
  }

  /** After the join no chunk file is left, nor (for several chunks) the
      manifest; a single chunk has become the output. */
  lemma FinishCleansUp(files: map<string, Stored>, root: string, job: Job, n: nat, world: World, tk: Toolkit)
    requires forall j | 0 <= j < n :: ChunkPath(root, job.id, j) in files
    ensures var after := FinishFiles(files, root, job, n, world, tk);
      && (forall j | 0 <= j < n :: ChunkPath(root, job.id, j) !in after)
      && (n > 1 ==> ConcatPath(root, job.id) !in after)
      && (n == 1 ==> Output(root, job) in after && after[Output(root, job)] == files[ChunkPath(root, job.id, 0)])
  {
    if n > 1 {
      SeveralCleanUp(files, root, job, n, world, tk);
    } else if n == 1 {
      SingleCleanUp(files, root, job, world, tk);
    }
  }

  /** FinishCleansUp for several chunks. */
  lemma SeveralCleanUp(files: map<string, Stored>, root: string, job: Job, n: nat, world: World, tk: Toolkit)
    requires n > 1 && forall j | 0 <= j < n :: ChunkPath(root, job.id, j) in files
    ensures var after := FinishFiles(files, root, job, n, world, tk);
      && (forall j | 0 <= j < n :: ChunkPath(root, job.id, j) !in after)
      && ConcatPath(root, job.id) !in after
  {
    var temps := TempPaths(root, job.id, n);
    TempsAreNotOutput(root, job, n);
    ConcatCleansUp(files - {Output(root, job)}, temps, Output(root, job), ConcatPath(root, job.id),
                   world.reencode, world.copy, world.fault, tk);
  }

  /** FinishCleansUp for a single chunk. */
  lemma SingleCleanUp(files: map<string, Stored>, root: string, job: Job, world: World, tk: Toolkit)
    requires ChunkPath(root, job.id, 0) in files
    ensures var after := FinishFiles(files, root, job, 1, world, tk);
      && ChunkPath(root, job.id, 0) !in after
      && Output(root, job) in after && after[Output(root, job)] == files[ChunkPath(root, job.id, 0)]
  {
    TempsAreNotOutput(root, job, 1);
  }

  /** `not output_path.exists() or output_path.stat().st_size < 1000` fails. */
  predicate Delivers(files: map<string, Stored>, output: string) {
    output in files && files[output].Size() >= 1000
  }

  // ---------------------------------------------------------------------
  // The attempt.

  /** How an attempt ends. */
  datatype Ending = MissingInput | BadTrim(message: string) | ChunkFailed(chunk: nat, frame: int)
                  | Undersized | Delivered
  {
    /** The attempt got past the chunks, so the project was marked completed. */
    predicate Reached() { Undersized? || Delivered? }
  }

  /** `str(e)` of the exception that ends an attempt, none on success. */
  function ErrorOf(e: Ending): (r: Option<string>)
    ensures r.None? <==> e.Delivered?
  {
    match e
    case MissingInput => Some("Input video file not found")
    case BadTrim(m) => Some(m)
    case ChunkFailed(_, i) => Some("Chunk processing failed at frame " + IntToString(i))
    case Undersized => Some("Output file not created or too small")
    case Delivered => None
  }

  /** An attempt's ending, the disk it leaves, and the record it leaves at
      the project's id (none when it writes no record). */
  datatype Attempted = Attempted(ending: Ending, files: map<string, Stored>, last: Option<StatusRecord>)

  /** The chunks an attempt plans (none when it stops before planning). */
  function AttemptPlan(job: Job, world: World): seq<Range> {
    if world.input.None? then []
    else match Window(world.input.value, job.trim)
      case Raised(_) => []
      case Ok(w) => Plan(w.0, w.1)
  }

  /** One attempt on the disk `files`. */
  function Attempt(files: map<string, Stored>, job: Job, root: string, world: World, now: real,
                   tk: Toolkit): Attempted
  {
    if world.input.None? then Attempted(MissingInput, files, None)
    else match Window(world.input.value, job.trim)
      case Raised(m) => Attempted(BadTrim(m), files, None)
      case Ok(w) => PlannedAttempt(files, job, root, world.input.value, w.0, w.1, world, now, tk)
  }

  /** What the chunk loop comes to: the chunk it stopped at (if any), the
      disk it leaves and the record it leaves at the project's id (none
      when every chunk succeeded, since the next record follows at once). */
  datatype Phase = Phase(failed: Option<nat>, files: map<string, Stored>, last: Option<StatusRecord>)

  /** The chunk loop over the window `[start, end)`: the chunks in order up
      to the first that fails; on a failure the files of the chunks before
      it are removed. */
  function ChunksPhase(files: map<string, Stored>, job: Job, root: string, src: Capture, start: int, end: int,
                       tk: Toolkit): (p: Phase)
    ensures p.failed.Some? ==> p.failed.value < |Plan(start, end)| && p.last.Some?
    ensures p.failed.None? ==> p.last.None?
  {
    PlanRanges(start, end);
    PlanPhase(files, job, root, start, end, Plan(start, end), ChunkRuns(src, job, root, Plan(start, end), tk), tk)
  }

  /** The chunk loop over the chunks `plan` of the window, whose runs are
      `runs`. */
  function PlanPhase(files: map<string, Stored>, job: Job, root: string, start: int, end: int,
                     plan: seq<Range>, runs: seq<ChunkRun>, tk: Toolkit): (p: Phase)
    requires |runs| == |plan| && forall j | 0 <= j < |plan| :: start <= plan[j].lo < plan[j].hi <= end
    ensures p.failed.Some? ==> p.failed.value < |plan| && p.last.Some?
    ensures p.failed.None? ==> p.last.None?
  {
    match FirstFailure(runs, |runs|)
    case Some(k) =>
      Phase(Some(k), Without(ChunksDisk(files, runs, root, job.id, k + 1, tk), TempPaths(root, job.id, k)),
            Some(EndOf(job, start, end, plan, runs, k)))
    case None =>
      Phase(None, ChunksDisk(files, runs, root, job.id, |runs|, tk), None)
  }

  /** The chunk loop from chunk `k` on, `files` being the disk the chunks
      before it left: the loop's own step-by-step reading. */
  function PhaseFrom(files: map<string, Stored>, job: Job, root: string, runs: seq<ChunkRun>,
                     ends: seq<StatusRecord>, tk: Toolkit, k: nat): Phase
    requires |ends| == |runs| && k <= |runs|
    decreases |runs| - k
  {
    if k == |runs| then Phase(None, files, None)
    else
      var after := ChunkDisk(files, runs[k], ChunkPath(root, job.id, k), tk);
      if runs[k].Succeeds() then PhaseFrom(after, job, root, runs, ends, tk, k + 1)
      else Phase(Some(k), Without(after, TempPaths(root, job.id, k)), Some(ends[k]))
  }

  /** Run from any chunk the loop reaches, the step-by-step reading gives
      the phase the first failing chunk determines. */
  lemma {:induction false} PhaseFromAgrees(files: map<string, Stored>, job: Job, root: string, start: int, end: int,
                                           plan: seq<Range>, runs: seq<ChunkRun>, ends: seq<StatusRecord>,
                                           tk: Toolkit, k: nat)
    requires |runs| == |plan| && k <= |plan| && forall j | 0 <= j < |plan| :: start <= plan[j].lo < plan[j].hi <= end
    requires EndsOf(job, start, end, plan, runs, ends)
    requires FirstFailure(runs, k).None?
    ensures PhaseFrom(ChunksDisk(files, runs, root, job.id, k, tk), job, root, runs, ends, tk, k)
         == PlanPhase(files, job, root, start, end, plan, runs, tk)
    decreases |plan| - k
  {
    if k < |plan| {
      if runs[k].Succeeds() {
        PhaseFromAgrees(files, job, root, start, end, plan, runs, ends, tk, k + 1);
      } else {
        assert ends[k] == EndOf(job, start, end, plan, runs, k);
        PhaseStops(runs, k);
      }
    }
  }

  /** When no chunk fails, every chunk's file is on the disk the loop
      leaves. */
  lemma PhaseKeepsChunks(files: map<string, Stored>, job: Job, root: string, src: Capture, start: int, end: int,
                         tk: Toolkit)
    requires ChunksPhase(files, job, root, src, start, end, tk).failed.None?
    ensures forall j | 0 <= j < |Plan(start, end)| ::
      ChunkPath(root, job.id, j) in ChunksPhase(files, job, root, src, start, end, tk).files
  {
    var runs := ChunkRuns(src, job, root, Plan(start, end), tk);
    ChunksDiskKeepsTemps(files, runs, root, job.id, |runs|, tk);
  }

  /** The attempt once the window `[start, end)` is known: the chunk loop,
      then (when no chunk failed) the join and the size check. */
  function PlannedAttempt(files: map<string, Stored>, job: Job, root: string, src: Capture, start: int, end: int,
                          world: World, now: real, tk: Toolkit): Attempted
  {
    var p := ChunksPhase(files, job, root, src, start, end, tk);
    if p.failed.Some? then Attempted(ChunkFailed(p.failed.value, Plan(start, end)[p.failed.value].lo), p.files, p.last)
    else
      PhaseKeepsChunks(files, job, root, src, start, end, tk);
      FinishedAttempt(p.files, job, root, world, |Plan(start, end)|, now, tk)
  }

  /** The attempt after its `n` chunks all succeeded. */
  function FinishedAttempt(files: map<string, Stored>, job: Job, root: string, world: World, n: nat, now: real,
                           tk: Toolkit): (a: Attempted)
    requires forall j | 0 <= j < n :: ChunkPath(root, job.id, j) in files
    ensures a.ending.Reached() && a.last.Some?
  {
    var out := FinishFiles(files, root, job, n, world, tk);
    if Delivers(out, Output(root, job)) then Attempted(Delivered, out, Some(CompletedRecord(now)))
    else Attempted(Undersized, out, Some(FinalizingRecord))
  }

  /** When the chunk loop stops at chunk `k`: every earlier chunk
      succeeded and its file is gone; the failed chunk's own file holds
      what its writer received before the failure (when the capture and a
      writer opened) and is not removed; no other file changed. */
  lemma FailedPhase(files: map<string, Stored>, job: Job, root: string, src: Capture, start: int, end: int,
                    tk: Toolkit)
    requires ChunksPhase(files, job, root, src, start, end, tk).failed.Some?
    ensures var ph := ChunksPhase(files, job, root, src, start, end, tk);
      var runs := ChunkRuns(src, job, root, Plan(start, end), tk);
      var k := ph.failed.value;
      var path := ChunkPath(root, job.id, k);
      && (forall j | 0 <= j < k :: runs[j].Succeeds() && ChunkPath(root, job.id, j) !in ph.files)
      && !runs[k].Succeeds()
      && (runs[k].opens ==> (path in ph.files <==> runs[k].codec.Some?))
      && (runs[k].opens && runs[k].codec.Some? ==>
            ph.files[path] == Video(runs[k].dims.0, runs[k].dims.1, runs[k].encoded.out, tk.sizeOf(runs[k].encoded.out)))
      && (forall q | q !in TempPaths(root, job.id, k + 1) :: (q in ph.files <==> q in files))
  {
    PlanRanges(start, end);
    FailedPlanPhase(files, job, root, start, end, Plan(start, end), ChunkRuns(src, job, root, Plan(start, end), tk), tk);
  }

  lemma FailedPlanPhase(files: map<string, Stored>, job: Job, root: string, start: int, end: int,
                        plan: seq<Range>, runs: seq<ChunkRun>, tk: Toolkit)
    requires |runs| == |plan| && forall j | 0 <= j < |plan| :: start <= plan[j].lo < plan[j].hi <= end
    requires PlanPhase(files, job, root, start, end, plan, runs, tk).failed.Some?
    ensures var ph := PlanPhase(files, job, root, start, end, plan, runs, tk);
      var k := ph.failed.value;
      var path := ChunkPath(root, job.id, k);
      && (forall j | 0 <= j < k :: runs[j].Succeeds() && ChunkPath(root, job.id, j) !in ph.files)
      && !runs[k].Succeeds()
      && (runs[k].opens ==> (path in ph.files <==> runs[k].codec.Some?))
      && (runs[k].opens && runs[k].codec.Some? ==>
            ph.files[path] == Video(runs[k].dims.0, runs[k].dims.1, runs[k].encoded.out, tk.sizeOf(runs[k].encoded.out)))
      && (forall q | q !in TempPaths(root, job.id, k + 1) :: (q in ph.files <==> q in files))
  {
    var ph := PlanPhase(files, job, root, start, end, plan, runs, tk);
    FirstFailureSpec(runs, |runs|);
    var k := ph.failed.value;
    var path := ChunkPath(root, job.id, k);
    assert path !in TempPaths(root, job.id, k) by {
      forall j | 0 <= j < k ensures ChunkPath(root, job.id, j) != path {
        if ChunkPath(root, job.id, j) == path {
          ChunkPathInjective(root, job.id, j, k);
        }
      }
    }
    forall q | q !in TempPaths(root, job.id, k + 1) ensures q in ph.files <==> q in files {
      ChunksDiskFrame(files, runs, root, job.id, k + 1, tk, q);
    }
  }

  /** A window processed as one chunk gives an output that holds exactly
      that chunk's encoding, at the writer's frame size. */
  lemma OneChunkOutput(files: map<string, Stored>, job: Job, root: string, src: Capture, start: int, end: int,
                       world: World, now: real, tk: Toolkit)
    requires |Plan(start, end)| == 1
    requires PlannedAttempt(files, job, root, src, start, end, world, now, tk).ending.Reached()
    ensures var a := PlannedAttempt(files, job, root, src, start, end, world, now, tk);
      var e := ChunkEncoding(src, start, end, job.style, job.intensity, job.crop, job.resize, tk);
      var d := WriterDims(job.crop, job.resize, src.width, src.height);
      Output(root, job) in a.files && a.files[Output(root, job)] == Video(d.0, d.1, e.out, tk.sizeOf(e.out))
  {
    var plan := Plan(start, end);
    var runs := ChunkRuns(src, job, root, plan, tk);
    var ph := ChunksPhase(files, job, root, src, start, end, tk);
    ChunkRangesShape(start, end, ChunkSize(end - start));
    assert plan[0] == Range(start, end);
    ChunkRunsAt(src, job, root, plan, tk, 0);
    FirstFailureSpec(runs, |runs|);
    assert runs[0].Succeeds();
    FinishCleansUp(ph.files, root, job, 1, world, tk);
  }

  /** An attempt that got past the chunks leaves none of its chunk files,
      nor (for several chunks) the manifest; it delivers exactly when the
      output exists with at least 1000 bytes. */
  lemma ReachedCleansUp(files: map<string, Stored>, job: Job, root: string, world: World, now: real, tk: Toolkit)
    requires Attempt(files, job, root, world, now, tk).ending.Reached()
    ensures var a := Attempt(files, job, root, world, now, tk);
      var n := |AttemptPlan(job, world)|;
      && (forall j | 0 <= j < n :: ChunkPath(root, job.id, j) !in a.files)
      && (n > 1 ==> ConcatPath(root, job.id) !in a.files)
      && (a.ending.Delivered? <==> Delivers(a.files, Output(root, job)))
  {
    var src := world.input.value;
    var w := Window(src, job.trim).value;
    var ph := ChunksPhase(files, job, root, src, w.0, w.1, tk);
    PhaseKeepsChunks(files, job, root, src, w.0, w.1, tk);
    FinishCleansUp(ph.files, root, job, |Plan(w.0, w.1)|, world, tk);
  }

  /** An upload that OpenCV cannot open reports 0 frames at 0 fps: a trim
      then divides by zero, and without one the plan is empty and no output
      is made. */
  lemma UnopenedInput(files: map<string, Stored>, job: Job, root: string, world: World, now: real, tk: Toolkit)
    requires world.input.Some? && !world.input.value.isOpen
    ensures Attempt(files, job, root, world, now, tk).ending
            == (if job.trim.Some? && job.trim.value.Truthy() then BadTrim("float division by zero") else Undersized)
  {
    var src := world.input.value;
    if !(job.trim.Some? && job.trim.value.Truthy()) {
      PlanEmptyWindow(0, 0);
      assert Output(root, job) !in FinishFiles(ChunksPhase(files, job, root, src, 0, 0, tk).files, root, job, 0, world, tk);
    }
  }

  /** One pass of the retry loop's body, up to the `except` block. */
  method RunAttempt(job: Job, root: string, world: World, now: real, tk: Toolkit,
                    sink: ProgressSink, store: ProjectStore, disk: Disk)
    returns (err: Option<string>)
    modifies sink, store, disk
    ensures var a := Attempt(old(disk.files), job, root, world, now, tk);
      && err == ErrorOf(a.ending)
      && disk.files == a.files
      && sink.entries == (if a.last.Some? then old(sink.entries)[job.id := a.last.value] else old(sink.entries))
      && store.docs == (if a.ending.Reached() then Completing(old(store.docs), job.id, Output(root, job))
                        else old(store.docs))
  {
    if world.input.None? {
      return Some("Input video file not found");
    }
    var src := world.input.value;
    var window := Window(src, job.trim);
    if window.Raised? {
      return Some(window.error);
    }
    err := RunPlanned(job, root, src, window.value.0, window.value.1, world, now, tk, sink, store, disk);
  }

  /** The attempt's body from the chunk loop on. */
  method RunPlanned(job: Job, root: string, src: Capture, start: int, end: int, world: World, now: real,
                    tk: Toolkit, sink: ProgressSink, store: ProjectStore, disk: Disk)
    returns (err: Option<string>)
    modifies sink, store, disk
    ensures var a := PlannedAttempt(old(disk.files), job, root, src, start, end, world, now, tk);
      && a.last.Some?
      && err == ErrorOf(a.ending)
      && disk.files == a.files
      && sink.entries == old(sink.entries)[job.id := a.last.value]
      && store.docs == (if a.ending.Reached() then Completing(old(store.docs), job.id, Output(root, job))
                        else old(store.docs))
  {
    var plan := Plan(start, end);
    ghost var entries0 := sink.entries;
    var failed := RunChunks(job, root, src, start, end, tk, sink, disk);
    if failed.Some? {
      err := Some("Chunk processing failed at frame " + IntToString(plan[failed.value].lo));
    } else {
      ghost var entries1 := sink.entries;
      PhaseKeepsChunks(old(disk.files), job, root, src, start, end, tk);
      err := Finish(job, root, world, |plan|, now, tk, sink, store, disk);
      SameOutsideKey(entries1, entries0, job.id, sink.entries[job.id]);
    }
  }

  lemma SameOutsideKey<K, V>(m: map<K, V>, n: map<K, V>, key: K, v: V)
    requires m - {key} == n - {key}
    ensures m[key := v] == n[key := v]
  {
    assert m[key := v] == (m - {key})[key := v];
    assert n[key := v] == (n - {key})[key := v];
  }

  /** The chunk loop: every planned chunk in order, until one fails; the
      chunks written so far are then removed and the loop stops. */
  method RunChunks(job: Job, root: string, src: Capture, start: int, end: int, tk: Toolkit,
                   sink: ProgressSink, disk: Disk)
    returns (failed: Option<nat>)
    modifies sink, disk
    ensures var p := ChunksPhase(old(disk.files), job, root, src, start, end, tk);
      && failed == p.failed
      && disk.files == p.files
      && (p.last.Some? ==> sink.entries == old(sink.entries)[job.id := p.last.value])
      && (p.last.None? ==> sink.entries - {job.id} == old(sink.entries) - {job.id})
  {
    var plan := Plan(start, end);
    PlanRanges(start, end);
    ghost var runs := ChunkRuns(src, job, root, plan, tk);
    ghost var ends := seq(|plan|, j requires 0 <= j < |plan| => EndOf(job, start, end, plan, runs, j));
    ChunkRunsAre(src, job, root, plan, tk);
    PhaseFromAgrees(disk.files, job, root, start, end, plan, runs, ends, tk, 0);
    failed := RunPlan(job, root, src, start, end, plan, runs, ends, tk, sink, disk);
  }

  /** The chunk loop itself, over the chunks `plan` whose runs are `runs`. */
  method RunPlan(job: Job, root: string, src: Capture, start: int, end: int, plan: seq<Range>,
                 ghost runs: seq<ChunkRun>, ghost ends: seq<StatusRecord>, tk: Toolkit,
                 sink: ProgressSink, disk: Disk)
    returns (failed: Option<nat>)
    requires forall j | 0 <= j < |plan| :: start <= plan[j].lo < plan[j].hi <= end
    requires RunsOf(src, job, root, plan, tk, runs) && EndsOf(job, start, end, plan, runs, ends)
    modifies sink, disk
    ensures var p := PhaseFrom(old(disk.files), job, root, runs, ends, tk, 0);
      && failed == p.failed
      && disk.files == p.files
      && (p.last.Some? ==> sink.entries == old(sink.entries)[job.id := p.last.value])
      && (p.last.None? ==> sink.entries - {job.id} == old(sink.entries) - {job.id})
  {
    var temps: seq<string> := [];
    var k := 0;
    while k < |plan|
      invariant k <= |plan| && temps == TempPaths(root, job.id, k)
      invariant PhaseFrom(disk.files, job, root, runs, ends, tk, k)
             == PhaseFrom(old(disk.files), job, root, runs, ends, tk, 0)
      invariant sink.entries - {job.id} == old(sink.entries) - {job.id}
    {
      ghost var entries1 := sink.entries;
      var ok := ChunkStep(job, root, src, start, end, plan, k, runs, ends, temps, tk, sink, disk);
      if !ok {
        SameOutsideKey(entries1, old(sink.entries), job.id, sink.entries[job.id]);
        return Some(k);
      }
      assert sink.entries - {job.id} == entries1 - {job.id};
      TempPathsAppend(root, job.id, k);
      temps := temps + [ChunkPath(root, job.id, k)];
      k := k + 1;
    }
    failed := None;
  }

  /** One pass of the chunk loop's body for the chunk `plan[k]`. */
  method ChunkStep(job: Job, root: string, src: Capture, start: int, end: int, plan: seq<Range>, k: nat,
                   ghost runs: seq<ChunkRun>, ghost ends: seq<StatusRecord>, temps: seq<string>, tk: Toolkit,
                   sink: ProgressSink, disk: Disk)
    returns (ok: bool)
    requires k < |plan| && forall j | 0 <= j < |plan| :: start <= plan[j].lo < plan[j].hi <= end
    requires RunsOf(src, job, root, plan, tk, runs) && EndsOf(job, start, end, plan, runs, ends)
    modifies sink, disk
    ensures ok == runs[k].Succeeds()
    ensures ok ==> disk.files == ChunkDisk(old(disk.files), runs[k], ChunkPath(root, job.id, k), tk)
    ensures !ok ==> disk.files == Without(ChunkDisk(old(disk.files), runs[k], ChunkPath(root, job.id, k), tk), temps)
    ensures sink.entries == old(sink.entries)[job.id := ends[k]]
  {
    StepOf(job, root, src, start, end, plan, k, runs, ends, tk);
    ok := ChunkBody(job, root, src, start, end, k, plan[k], runs[k], temps, tk, sink, disk);
  }

  /** The run and the final record of the chunk `plan[k]`. */
  lemma StepOf(job: Job, root: string, src: Capture, start: int, end: int, plan: seq<Range>, k: nat,
               runs: seq<ChunkRun>, ends: seq<StatusRecord>, tk: Toolkit)
    requires k < |plan| && forall j | 0 <= j < |plan| :: start <= plan[j].lo < plan[j].hi <= end
    requires RunsOf(src, job, root, plan, tk, runs) && EndsOf(job, start, end, plan, runs, ends)
    ensures runs[k] == RunOf(src, job, plan[k], ChunkPath(root, job.id, k), tk)
    ensures ends[k] == ChunkEndRecord(runs[k], job.style, plan[k].hi - plan[k].lo,
                                      StartRecord(job.style, start, end, k, plan[k].lo))
  {
    assert ends[k] == EndOf(job, start, end, plan, runs, k);
  }

  /** One pass of the chunk loop's body: the chunk, then, when it failed,
      the removal of the chunk files `temps` written before it. */
  method ChunkBody(job: Job, root: string, src: Capture, start: int, end: int, k: nat, r: Range,
                   ghost run: ChunkRun, temps: seq<string>, tk: Toolkit, sink: ProgressSink, disk: Disk)
    returns (ok: bool)
    requires start <= r.lo < r.hi <= end
    requires run == RunOf(src, job, r, ChunkPath(root, job.id, k), tk)
    modifies sink, disk
    ensures ok == run.Succeeds()
    ensures ok ==> disk.files == ChunkDisk(old(disk.files), run, ChunkPath(root, job.id, k), tk)
    ensures !ok ==> disk.files == Without(ChunkDisk(old(disk.files), run, ChunkPath(root, job.id, k), tk), temps)
    ensures sink.entries == old(sink.entries)[job.id := ChunkEndRecord(run, job.style, r.hi - r.lo,
                                                                        StartRecord(job.style, start, end, k, r.lo))]
  {
    ok := RunChunk(job, root, src, start, end, k, r, run, tk, sink, disk);
    if !ok {
      RemoveAll(temps, disk);
    }
  }

  /** The loop stops at the first chunk that fails. */
  lemma PhaseStops(runs: seq<ChunkRun>, k: nat)
    requires k < |runs| && FirstFailure(runs, k).None? && !runs[k].Succeeds()
    ensures FirstFailure(runs, |runs|) == Some(k)
  {
    FirstFailureSticky(runs, k + 1, |runs|);
    assert FirstFailure(runs, |runs|) == Some(k);
  }

  /** One iteration of the chunk loop: the chunk's "processing" record, the
      chunk itself, and the check that it succeeded and left its file. */
  method RunChunk(job: Job, root: string, src: Capture, start: int, end: int, k: nat,
                  r: Range, ghost run: ChunkRun, tk: Toolkit, sink: ProgressSink, disk: Disk)
    returns (ok: bool)
    requires start <= r.lo < r.hi <= end
    requires run == RunOf(src, job, r, ChunkPath(root, job.id, k), tk)
    modifies sink, disk
    ensures ok == run.Succeeds()
    ensures disk.files == ChunkDisk(old(disk.files), run, ChunkPath(root, job.id, k), tk)
    ensures sink.entries == old(sink.entries)[job.id := ChunkEndRecord(run, job.style, r.hi - r.lo,
                                                                        StartRecord(job.style, start, end, k, r.lo))]
  {
    var begin := StartRecord(job.style, start, end, k, r.lo);
    sink.Put(job.id, begin);
    ok := EncodeChunk(job, src, r, ChunkPath(root, job.id, k), run, begin, old(sink.entries), tk, sink, disk);
  }

  /** `process_video_chunk` on the chunk `r`, and the check that its file
      exists, after the record `begin` replaced what `entries0` held. */
  method EncodeChunk(job: Job, src: Capture, r: Range, path: string, ghost run: ChunkRun, ghost begin: StatusRecord,
                     ghost entries0: map<string, StatusRecord>, tk: Toolkit, sink: ProgressSink, disk: Disk)
    returns (ok: bool)
    requires r.lo < r.hi
    requires run == RunOf(src, job, r, path, tk)
    requires sink.entries == entries0[job.id := begin]
    modifies sink, disk
    ensures ok == run.Succeeds()
    ensures disk.files == ChunkDisk(old(disk.files), run, path, tk)
    ensures sink.entries == entries0[job.id := ChunkEndRecord(run, job.style, r.hi - r.lo, begin)]
  {
    var success, _ := ProcessVideoChunk(src, path, r.lo, r.hi, job.style, job.intensity, job.crop,
                                        job.resize, job.id, tk, sink, disk);
    ChunkEntriesAfter(entries0, job.id, begin, run, job.style, r.hi - r.lo);
    ok := success && path in disk.files;
  }

  /** Over the record `begin` written before it, the chunk leaves its end
      record. */
  lemma ChunkEntriesAfter(entries0: map<string, StatusRecord>, id: string, begin: StatusRecord, run: ChunkRun,
                          style: string, total: int)
    requires 0 < total && run.read <= total
    ensures ChunkEntries(entries0[id := begin], id, run, style, total) == entries0[id := ChunkEndRecord(run, style, total, begin)]
  {
    var rec := ChunkEndRecord(run, style, total, begin);
    assert entries0[id := begin][id := rec] == entries0[id := rec];
  }

  /** From the "Finalizing video..." record to the size check. The project
      is marked completed before the output is checked. */
  method Finish(job: Job, root: string, world: World, n: nat, now: real, tk: Toolkit,
                sink: ProgressSink, store: ProjectStore, disk: Disk)
    returns (err: Option<string>)
    requires forall j | 0 <= j < n :: ChunkPath(root, job.id, j) in disk.files
    modifies sink, store, disk
    ensures var a := FinishedAttempt(old(disk.files), job, root, world, n, now, tk);
      && err == ErrorOf(a.ending)
      && disk.files == a.files
      && sink.entries == old(sink.entries)[job.id := a.last.value]
      && store.docs == Completing(old(store.docs), job.id, Output(root, job))
  {
    sink.Put(job.id, FinalizingRecord);
    JoinChunks(job, root, world, n, tk, disk);
    var output := Output(root, job);
    store.MarkCompleted(job.id, output);
    if output in disk.files && disk.files[output].Size() >= 1000 {
      sink.Put(job.id, CompletedRecord(now));
      err := None;
    } else {
      err := Some("Output file not created or too small");
    }
  }

  /** Removing the old output, then joining the chunks into it. */
  method JoinChunks(job: Job, root: string, world: World, n: nat, tk: Toolkit, disk: Disk)
    requires forall j | 0 <= j < n :: ChunkPath(root, job.id, j) in disk.files
    modifies disk
    ensures disk.files == FinishFiles(old(disk.files), root, job, n, world, tk)
  {
    var output := Output(root, job);
    var temps := TempPaths(root, job.id, n);
    TempsAreNotOutput(root, job, n);
    disk.Unlink(output);
    if n > 1 {
      var _ := ConcatenateChunks(temps, output, ConcatPath(root, job.id), world.reencode, world.copy,
                                 world.fault, tk, disk);
    } else if n == 1 {
      disk.Copy(temps[0], output);
      disk.Unlink(temps[0]);
    }
  }

  // ---------------------------------------------------------------------
  // The retry loop.

  /** The project collection after one attempt: an attempt that got past
      the chunks marked the project completed. */
  function StoreAfter(docs: map<string, Project>, a: Attempted, id: string, output: string): map<string, Project> {
    if a.ending.Reached() then Completing(docs, id, output) else docs
  }

  /** The project collection after the attempts of `trace`, before any
      "failed" mark. */
  function DocsAfter(docs: map<string, Project>, trace: seq<Attempted>, id: string, output: string): map<string, Project>
    decreases |trace|
  {
    if trace == [] then docs
    else StoreAfter(DocsAfter(docs, trace[..|trace| - 1], id, output), trace[|trace| - 1], id, output)
  }

  /** The disk before attempt `k` of `trace`. */
  function FilesBefore(files0: map<string, Stored>, trace: seq<Attempted>, k: nat): map<string, Stored>
    requires k <= |trace|
  {
    if k == 0 then files0 else trace[k - 1].files
  }

  /** Attempt `k` of `trace` ran in `worlds[k]` at `clock[k]` on the disk
      the attempt before it left. */
  ghost predicate Traced(files0: map<string, Stored>, trace: seq<Attempted>, job: Job, root: string,
                         worlds: seq<World>, clock: seq<real>, tk: Toolkit)
    requires |trace| <= |worlds| && |trace| <= |clock|
    decreases |trace|
  {
    trace == [] ||
      var k := |trace| - 1;
      && Traced(files0, trace[..k], job, root, worlds, clock, tk)
      && trace[k] == Attempt(FilesBefore(files0, trace, k), job, root, worlds[k], clock[k], tk)
  }

  lemma TracedAppend(files0: map<string, Stored>, trace: seq<Attempted>, a: Attempted, job: Job, root: string,
                     worlds: seq<World>, clock: seq<real>, tk: Toolkit)
    requires |trace| < |worlds| && |trace| < |clock|
    requires Traced(files0, trace, job, root, worlds, clock, tk)
    requires a == Attempt(FilesBefore(files0, trace, |trace|), job, root, worlds[|trace|], clock[|trace|], tk)
    ensures Traced(files0, trace + [a], job, root, worlds, clock, tk)
    ensures FilesBefore(files0, trace + [a], |trace| + 1) == a.files
  {
    assert (trace + [a])[..|trace|] == trace;
    if trace != [] {
      assert FilesBefore(files0, trace + [a], |trace|) == FilesBefore(files0, trace, |trace|);
    }
  }

  lemma DocsAfterAppend(docs: map<string, Project>, trace: seq<Attempted>, a: Attempted, id: string, output: string)
    ensures DocsAfter(docs, trace + [a], id, output) == StoreAfter(DocsAfter(docs, trace, id, output), a, id, output)
  {
    assert (trace + [a])[..|trace|] == trace;
  }

  /** The record an attempt leaves when it delivers, and the attempts that
      leave none. */
  lemma AttemptRecord(files: map<string, Stored>, job: Job, root: string, world: World, now: real, tk: Toolkit)
    ensures var a := Attempt(files, job, root, world, now, tk);
      && (a.ending.Delivered? ==> a.last == Some(CompletedRecord(now)))
      && (a.ending.MissingInput? || a.ending.BadTrim? <==> a.last.None?)
  {
  }

  /** Once an attempt has got past the chunks the project document says
      completed, with the output path and a progress of 100; before that
      the collection is untouched. */
  lemma {:induction false} DocsAfterReached(docs: map<string, Project>, trace: seq<Attempted>, id: string, output: string)
    requires id in docs
    ensures var d := DocsAfter(docs, trace, id, output);
      && ((exists k | 0 <= k < |trace| :: trace[k].ending.Reached()) ==>
            id in d && d[id].status == Completed && d[id].outputPath == Some(output) && d[id].progress == Percent(100, 1))
      && ((forall k | 0 <= k < |trace| :: !trace[k].ending.Reached()) ==> d == docs)
    decreases |trace|
  {
    if trace != [] {
      var init := trace[..|trace| - 1];
      DocsAfterReached(docs, init, id, output);
      assert forall k | 0 <= k < |init| :: init[k] == trace[k];
      if exists k | 0 <= k < |trace| :: trace[k].ending.Reached() {
        if !trace[|trace| - 1].ending.Reached() {
          var k :| 0 <= k < |trace| && trace[k].ending.Reached();
          assert init[k].ending.Reached();
        }
      }
    }
  }

  /** A job that gave up after an attempt had reached the size check stays
      "failed" with its output path and a progress of 100. */
  lemma GaveUpKeepsOutput(docs: map<string, Project>, trace: seq<Attempted>, id: string, output: string,
                          error: string, k: nat)
    requires id in docs && k < |trace| && trace[k].ending.Reached()
    ensures var d := Failing(DocsAfter(docs, trace, id, output), id, error);
      && id in d && d[id].status == Failed && d[id].errorMessage == Some(error)
      && d[id].outputPath == Some(output) && d[id].progress == Percent(100, 1)
  {
    DocsAfterReached(docs, trace, id, output);
  }

  /** `process_video_background`: up to three attempts. After a failed
      attempt other than the third the record says "retrying" with a wait
      of `2 ** attempt` seconds; after the third it says "failed" and the
      project is marked failed. Attempt `k` runs in `worlds[k]` at time
      `clock[k]`; `trace` (ghost) is what each attempt came to. */
  method ProcessVideoBackground(job: Job, root: string, worlds: seq<World>, clock: seq<real>, tk: Toolkit,
                                sink: ProgressSink, store: ProjectStore, disk: Disk)
    returns (attempts: nat, ghost trace: seq<Attempted>)
    requires |worlds| == 3 && |clock| == 3
    modifies sink, store, disk
    ensures 1 <= attempts <= 3 && |trace| == attempts
    ensures Traced(old(disk.files), trace, job, root, worlds, clock, tk)
    ensures disk.files == trace[attempts - 1].files
    ensures forall k | 0 <= k < attempts - 1 :: !trace[k].ending.Delivered?
    ensures trace[attempts - 1].ending.Delivered? || attempts == 3
    ensures sink.entries - {job.id} == old(sink.entries) - {job.id} && job.id in sink.entries
    ensures trace[attempts - 1].ending.Delivered? ==>
      && sink.entries[job.id] == CompletedRecord(clock[attempts - 1])
      && store.docs == DocsAfter(old(store.docs), trace, job.id, Output(root, job))
    ensures !trace[attempts - 1].ending.Delivered? ==>
      var error := ErrorOf(trace[2].ending).value;
      && sink.entries[job.id] == GaveUpRecord(error, clock[2])
      && store.docs == Failing(DocsAfter(old(store.docs), trace, job.id, Output(root, job)), job.id, error)
  {
    trace := [];
    var retry := 0;
    while retry < 3
      invariant retry <= 3 && |trace| == retry
      invariant Traced(old(disk.files), trace, job, root, worlds, clock, tk)
      invariant disk.files == FilesBefore(old(disk.files), trace, retry)
      invariant forall k | 0 <= k < retry :: !trace[k].ending.Delivered?
      invariant sink.entries - {job.id} == old(sink.entries) - {job.id}
      invariant 0 < retry ==> job.id in sink.entries
      invariant 0 < retry < 3 ==> sink.entries[job.id] == RetryRecord(retry, clock[retry - 1])
      invariant retry < 3 ==> store.docs == DocsAfter(old(store.docs), trace, job.id, Output(root, job))
      invariant retry == 3 ==>
        var error := ErrorOf(trace[2].ending).value;
        && sink.entries[job.id] == GaveUpRecord(error, clock[2])
        && store.docs == Failing(DocsAfter(old(store.docs), trace, job.id, Output(root, job)), job.id, error)
    {
      ghost var docs := store.docs;
      var delivered, a := RetryStep(job, root, worlds[retry], clock[retry], retry + 1, tk, sink, store, disk);
      TracedAppend(old(disk.files), trace, a, job, root, worlds, clock, tk);
      DocsAfterAppend(old(store.docs), trace, a, job.id, Output(root, job));
      trace := trace + [a];
      retry := retry + 1;
      if delivered {
        return retry, trace;
      }
    }
    attempts := 3;
  }

  /** One pass of the retry loop: the attempt numbered `attempt` (from 1),
      then the `except` block when it failed. */
  method RetryStep(job: Job, root: string, world: World, now: real, attempt: nat, tk: Toolkit,
                   sink: ProgressSink, store: ProjectStore, disk: Disk)
    returns (delivered: bool, ghost a: Attempted)
    requires 1 <= attempt <= 3
    modifies sink, store, disk
    ensures a == Attempt(old(disk.files), job, root, world, now, tk)
    ensures delivered == a.ending.Delivered?
    ensures disk.files == a.files
    ensures sink.entries - {job.id} == old(sink.entries) - {job.id} && job.id in sink.entries
    ensures delivered ==>
      sink.entries[job.id] == CompletedRecord(now)
      && store.docs == StoreAfter(old(store.docs), a, job.id, Output(root, job))
    ensures !delivered && attempt < 3 ==>
      sink.entries[job.id] == RetryRecord(attempt, now)
      && store.docs == StoreAfter(old(store.docs), a, job.id, Output(root, job))
    ensures !delivered && attempt == 3 ==>
      sink.entries[job.id] == GaveUpRecord(ErrorOf(a.ending).value, now)
      && store.docs == Failing(StoreAfter(old(store.docs), a, job.id, Output(root, job)), job.id, ErrorOf(a.ending).value)
  {
    a := Attempt(disk.files, job, root, world, now, tk);
    AttemptRecord(disk.files, job, root, world, now, tk);
    ghost var entries0, docs0 := sink.entries, store.docs;
    var err := RunAttempt(job, root, world, now, tk, sink, store, disk);
    ghost var entries1, docs1 := sink.entries, store.docs;
    delivered := err.None?;
    if err.Some? {
      if attempt < 3 {
        sink.Put(job.id, RetryRecord(attempt, now));
      } else {
        sink.Put(job.id, GaveUpRecord(err.value, now));
        store.MarkFailed(job.id, err.value);
      }
    }
    StepSummary(a, err, attempt, now, job.id, Output(root, job), entries0, entries1, sink.entries, docs0, docs1, store.docs);
  }

  /** The records and the project collection after one pass of the retry
      loop, from what the attempt and the `except` block each did. */
  lemma StepSummary(a: Attempted, err: Option<string>, attempt: nat, now: real, id: string, output: string,
                    entries0: map<string, StatusRecord>, entries1: map<string, StatusRecord>, entries: map<string, StatusRecord>,
                    docs0: map<string, Project>, docs1: map<string, Project>, docs: map<string, Project>)
    requires err == ErrorOf(a.ending)
    requires a.ending.Delivered? ==> a.last == Some(CompletedRecord(now))
    requires entries1 == (if a.last.Some? then entries0[id := a.last.value] else entries0)
    requires docs1 == (if a.ending.Reached() then Completing(docs0, id, output) else docs0)
    requires err.None? ==> entries == entries1 && docs == docs1
    requires err.Some? && attempt < 3 ==> entries == entries1[id := RetryRecord(attempt, now)] && docs == docs1
    requires err.Some? && attempt >= 3 ==>
      entries == entries1[id := GaveUpRecord(err.value, now)] && docs == Failing(docs1, id, err.value)
    ensures entries - {id} == entries0 - {id} && id in entries
    ensures err.None? ==> entries[id] == CompletedRecord(now) && docs == StoreAfter(docs0, a, id, output)
    ensures err.Some? && attempt < 3 ==> entries[id] == RetryRecord(attempt, now) && docs == StoreAfter(docs0, a, id, output)
    ensures err.Some? && attempt >= 3 ==>
      entries[id] == GaveUpRecord(ErrorOf(a.ending).value, now)
      && docs == Failing(StoreAfter(docs0, a, id, output), id, ErrorOf(a.ending).value)
  {
    assert entries1 - {id} == entries0 - {id};
  }
}
