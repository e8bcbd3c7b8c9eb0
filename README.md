# Master Video Animator — a Dafny model of its processing core

Master Video Animator turns an uploaded video into an "artistic" one (pencil
sketch, cartoon, oil painting, watercolor, anime, vintage film). This project
models the parts of it that decide what happens to a video, and proves what
they promise.

- **The API's background job** (`backend/server.py`), in two parts.
  - The job itself:
    - it plans the trim window and chunks of about an eighth of it (never fewer than 50 nor more than 300 frames);
    - it encodes every chunk into its own temporary file, writing status records as it goes;
    - it joins the chunks with FFmpeg, falling back to a stream copy and then to an OpenCV concatenation;
    - it copies the result to the output, checks its size, removes the temporary files, and makes up to three attempts.
  - Its helpers:
    - the in-memory progress dictionary and its cleanup;
    - the status lookup;
    - the upload checks;
    - the sanitised download name;
    - the positions of the preview frames.
- **The simple processor** (`simple_video_processor.py`): one pass over a video, with a fixed codec list, an FFmpeg re-encode and the pencil or cartoon effect falling back to its input.
- **The advanced features** (`advanced_features.py`):
  - the intensity-derived filter parameters and the effects' fallbacks;
  - the sampling analysis and its recommendation rule;
  - the 2x2 comparison grid.

Modules follow the program's structure:

| Module | File | What it holds |
|---|---|---|
| `Common` | common.dfy | options, outcomes, decimal text, path helpers |
| `Media` | media.dfy | frames, captures, codecs, the `Disk` class, the generic frame encoder `Encode` |
| `Progress` | progress.dfy | status records, the `ProgressSink` and `ProjectStore` classes, status lookup |
| `Planner` | planner.dfy | trim window, chunk size, chunk ranges |
| `Names` | names.dfy | chunk, manifest and output paths |
| `ChunkStatus` | chunkstatus.dfy | the progress records a chunk writes |
| `ChunkEncoder` | encoder.dfy | `process_video_chunk` |
| `Concat` | concat.dfy | the FFmpeg chain, `combine_chunks_opencv`, the manifest |
| `JobRunner` | runner.dfy | `process_video_background` with its retry |
| `Routes` | routes.dfy | upload, download name, previews |
| `SimpleProcessor` | simple.dfy | `process_video_bulletproof` |
| `Advanced` | advanced.dfy | the advanced features |

A method works on the state the source mutates:
- the `Disk` of files;
- the status dictionary, a `ProgressSink`;
- the project collection, a `ProjectStore`;
- the grid's frame buffer, an `array2`.

Each method is proved equal to a specification function, and the source's promises are lemmas about those functions.

Everything outside the process is a parameter:
- OpenCV's filters, resize, writers and file sizes are a `Toolkit` of functions;
- a video on disk is a `Capture` value;
- what FFmpeg does is a `ToolRun`;
- what one attempt of the job finds is a `World`;
- the analysis's per-frame measurements are a `FrameStats`;
- the clock, the uuid and temporary names are arguments.

Python's exceptions are `Outcome.Raised` values with the text Python would produce. Integer truncation (`int()`, `//`) is written out, and so are Python's slice rules.

## Behaviour as the code has it

Where the code and its documented intent differ, the model follows the code:

- **Chunk plan.** A 90-frame window gives two chunks of 50 and 40 frames, not one. The trim window is not clamped. Any non-empty trim dict on a video reporting 0 fps raises, even one holding neither time, because the `end_time` default is evaluated eagerly.
- **Progress.**
  - The progress of a job does not increase throughout. The records of a chunk climb towards 95%, then the next chunk's first record drops back to its start share of 90%.
  - `progress_callback` is never passed, so it is never called.
  - `cleanup_processing_status` tests `hasattr` on a dict, which is always false. It therefore never removes an entry, and stamps every entry with the current time.
- **The retry loop.** Its body is indented at the level of `try`. It is modelled as evidently intended: the whole body is the attempt.
- **The chunk encoder.**
  - The writer is opened at the crop size, while the frames written may be resized.
  - A frame is written only while the writer is open.
  - A chunk that fails leaves its partial file behind.
- **After the join.**
  - The job is marked completed before the output's size is checked. A job that finally gives up is therefore stored as failed, with progress 100 and an output path.
  - The XVID fallback of the OpenCV concatenation writes a path that is never the output path.
  - A quote in a chunk path breaks the FFmpeg manifest; the model parses the manifest as FFmpeg would.
- **Upload.**
  - The route reads the upload's content twice. The first read takes the whole content, so the second returns nothing and the file saved is empty. The model opens the saved file by its byte count, which is always 0: unless OpenCV opens an empty file, every upload that passes the checks fails with 500 "400: Invalid video file".
  - Every `HTTPException` raised inside its `try` is re-raised as a 500 whose detail is the original's text.
  - `ProjectStore.Insert` overwrites a project of the same id.
- **The simple processor.** An input that cannot be opened ends in `UnboundLocalError` from the `finally` block, which replaces the "Cannot open" message.
- **The comparison grid.**
  - The grid calls `apply_pencil_effect_simple` and `apply_cartoon_effect_simple` on the `AdvancedArtisticEffects` class, which has no such attributes. Any grid with a "pencil" or "cartoon" cell raises, so the default grid always returns False (`Advanced.DefaultGridFails`).
  - A frame that cannot be read writes a black grid frame.
- **The analysis.**
  - It calls the optical flow with no points. The model makes the flow's outcome a parameter.
  - A frame's brightness is recorded before a flow failure aborts the analysis.
  - `np.linspace` positions are modelled with exact floors.

## Model

| member | source | states |
|---|---|---|
| `Common.Trunc` | backend/server.py:554-555 | Python's `int()` on a float truncates toward zero: for a non-negative value the greatest integer not above it, for a negative value the least integer not below it |
| `Common.NatToStringDigits` | backend/server.py:577 | `str(n)` of a non-negative integer is a non-empty run of decimal digits without a leading zero |
| `Common.IntToString` | backend/server.py:334 | `str(i)` is non-empty and starts with '-' exactly when `i` is negative |
| `Common.NatToStringRoundTrip` | backend/server.py:577 | the digits `str(n)` prints denote `n` again |
| `Common.Format03Digits` | backend/server.py:571 | `f"{n:03d}"` is all digits, `max(3, len(str(n)))` long, and exactly three digits below 1000 |
| `Common.Format03RoundTrip` | backend/server.py:571 | the zero-padded chunk number reads back as the number |
| `Common.Format03Injective` | backend/server.py:571 | two chunk numbers with the same padded rendering are equal |
| `Common.BeforeFirst` | backend/server.py:765 | `s.split(c)[0]` is a prefix of `s` holding no `c`, and it stops at a `c` whenever it is shorter than `s` |
| `Common.Mp4ToAvi` | backend/server.py:216 | `str.replace('.mp4', '.avi')` keeps the length of the path |
| `Common.Mp4ToAviMovesMp4Paths` | backend/server.py:214-216 | a path ending in ".mp4" is always changed by the replacement, so the XVID fallback writer never targets the requested output path |
| `Common.BaseName` | simple_video_processor.py:108 | `Path(p).name` holds no '/' and is a suffix of `p` |
| `Common.RFind` | simple_video_processor.py:108 | the index of the last `c` of `s`, or -1: the character there is `c` and none after it is |
| `Common.Stem` | simple_video_processor.py:108 | `Path(p).stem` holds no '/' |
| `Names.OutputPath` | backend/server.py:541-542 | the output path of a job ends in ".mp4" |
| `Names.ChunkPathInjective` | backend/server.py:571 | two chunk numbers naming the same temporary file are equal, so no chunk file overwrites another |
| `Names.PathsDistinct` | backend/server.py:541-605 | a chunk file, the concat manifest and the output file of one job are three different paths |
| `Planner.TrimWindow` | backend/server.py:550-555 | no trim or an empty dict gives `[0, total_frames)`; any non-empty dict, even one holding neither time, raises "float division by zero" at fps 0 (the default end time is computed even when given); otherwise each bound is the truncation of seconds times fps, the end defaulting to the exact product `total_frames / fps * fps` |
| `Planner.OtherKeysAreATrim` | backend/server.py:553-555 | a dict holding only other keys is truthy: it raises at fps 0 and otherwise selects the whole video, while an empty dict is no trim |
| `Planner.TrimWindowIsNotClamped` | backend/server.py:553-555 | a negative start time gives a negative start frame and an end time past the video an end frame past its length: nothing is clamped |
| `Planner.ChunkSize` | backend/server.py:563 | the chunk size lies in [50, 300]; it is `n // 8` for windows of 400 to 2400 frames, 50 below 400 and 300 beyond 2407 |
| `Planner.ChunkRanges` | backend/server.py:569-570 | the chunk ranges of `range(from, end, size)` are empty exactly when the window is empty |
| `Planner.ChunkRangesShape` | backend/server.py:569-570 | each range is non-empty, inside the window and at most `size` long; the first starts at `from`, the last ends at `end`, and neighbours touch, every one but the last being exactly `size` long |
| `Planner.ChunkRangesBounds` | backend/server.py:569-570 | every range lies inside `[from, end)`, is non-empty and is at most `size` long |
| `Planner.ChunkRangesEnds` | backend/server.py:569-570 | the first range starts at `from` and the last ends at `end` (`min(i + size, end_frame)`) |
| `Planner.ChunkRangesContiguous` | backend/server.py:569-570 | each range ends where the next begins, and every range but the last is exactly `size` long |
| `Planner.ChunkRangesCover` | backend/server.py:569-570 | a frame lies in the window exactly when some range contains it, and no two ranges both contain it, so a frame of the window is in exactly one |
| `Planner.ChunkRangesOrdered` | backend/server.py:569-570 | the ranges are increasing and pairwise disjoint |
| `Planner.ChunkRangesTotal` | backend/server.py:569-570 | the lengths of the ranges add up to the length of the window, 0 for an empty one |
| `Planner.ChunkRangesCount` | backend/server.py:569-570 | there are `ceil((end - from) / size)` ranges |
| `Planner.PlanRanges` | backend/server.py:560-570 | every planned chunk is a non-empty part of the trim window |
| `Planner.PlanEmptyWindow` | backend/server.py:569 | an empty or inverted window plans no chunk |
| `Planner.ShortWindowIsOneChunk` | backend/server.py:563-570 | a window of at most 50 frames is a single chunk |
| `Planner.NinetyFramesMakeTwoChunks` | backend/server.py:563-570 | a 90-frame video is cut into the chunks [0, 50) and [50, 90) |
| `Planner.ChunkStartProgress` | backend/server.py:575 | the progress published before a chunk is a well-formed fraction (positive denominator) |
| `Planner.ChunkStartProgressBounds` | backend/server.py:573-577 | before every planned chunk the published progress lies in [0, 90) |
| `Progress.ProgressSink.constructor` | backend/server.py:80 | the status dictionary starts empty |
| `Progress.ProgressSink.Put` | backend/server.py:573-577 | `processing_status[id] = record` replaces the entry of `id`, keeps every other entry and is observed by pollers as the next record written |
| `Progress.ProgressSink.CleanupProcessingStatus` | backend/server.py:83-97 | as written: the set of entries is unchanged, every entry is kept and gets the current time as its timestamp, and nothing is removed however old it is |
| `Progress.ProjectStore.constructor` | backend/server.py:460 | the project collection holds the given documents |
| `Progress.ProjectStore.Insert` | backend/server.py:460 | `insert_one` stores the document under its id and keeps the others |
| `Progress.ProjectStore.MarkProcessing` | backend/server.py:503-506 | a stored project becomes "processing" with the requested art style, all else kept; an unknown id changes nothing |
| `Progress.ProjectStore.MarkCompleted` | backend/server.py:657-660 | a stored project becomes "completed" at 100% with the output path, all else kept; an unknown id changes nothing |
| `Progress.ProjectStore.MarkFailed` | backend/server.py:698-701 | a stored project becomes "failed" with the error message, its progress and output path kept; an unknown id changes nothing |
| `Progress.GetProcessingStatus` | backend/server.py:704-722 | an answer exactly when the id is in the status dictionary or the collection; the in-memory record wins and is returned field by field; otherwise the stored status and progress with "Project status: ..." ; otherwise 404 |
| `Progress.StartProcessing` | backend/server.py:480-523 | an unknown project gives a 500 whose detail is the text of the 404 and changes nothing; a known one gets its entry reset to "starting" at 0% with a timestamp, every other entry only re-timestamped, and its document marked processing with the art style |
| `ChunkStatus.ChunkProgress` | backend/server.py:330 | the chunk progress is a well-formed fraction between 0 and 95 percent |
| `ChunkStatus.ChunkProgressValue` | backend/server.py:330 | the fraction has the value of `min(95, processed / total * 100)`, which lies in [0, 95] |
| `ChunkStatus.BatchedIncreasing` | backend/server.py:284-301 | the frame counts after the batches strictly increase and stay within the final count; `k` batches hold between `k` and `5k` frames |
| `ChunkStatus.BatchedAppend` | backend/server.py:288-301 | a batch of one to five more frames extends a well-formed batch history |
| `ChunkStatus.BatchLogAppend` | backend/server.py:331-335 | each batch appends exactly its own record to what pollers can observe |
| `ChunkStatus.BatchLogProgress` | backend/server.py:330-335 | every record a chunk publishes after a batch is a "processing" record of its project, without a timestamp, with the frame counter message, and a progress equal to `min(95, processed / total * 100)` in [0, 95] |
| `ChunkStatus.PublishedLast` | backend/server.py:331-350 | a chunk leaves behind the failure record when it failed, the record of its last batch when it read frames, and the previous entry when it read none |
| `ChunkStatus.SuccessPublished` | backend/server.py:284-341 | a batch loop that ends without an exception has published what the chunk promises |
| `Media.SliceIndex` | backend/server.py:314 | one bound of a numpy slice is clamped into `[0, n]`, and an index already inside is kept |
| `Media.SliceRange` | backend/server.py:314 | a numpy slice selects an ordered index range inside the axis, and an in-bounds slice selects exactly `[a, b)` |
| `Media.Slice2D` | backend/server.py:314 | `frame[y0:y1, x0:x1]` never raises; its size is that of the clamped ranges and each pixel is the source pixel at the offset position |
| `Media.Capture.StreamFrom` | backend/server.py:281-292 | after seeking to an existing frame, reading yields the frames from there to the end; a capture that did not open yields nothing |
| `Media.OrInput` | simple_video_processor.py:39-41 | an effect wrapped in a bare `except` returns its input frame when its body raises and the body's result otherwise |
| `Media.Disk.constructor` | backend/server.py:39-43 | the directory tree holds the given files |
| `Media.Disk.Write` | backend/server.py:326 | a writer creates or overwrites exactly one file |
| `Media.Disk.Unlink` | backend/server.py:647-649 | `unlink(missing_ok=True)` removes exactly that path and never fails on a missing one |
| `Media.Disk.Copy` | backend/server.py:653 | `shutil.copy2` makes the destination a copy of the source and changes nothing else |
| `Media.Disk.Move` | simple_video_processor.py:180 | `shutil.move` removes the source and puts its content at the destination |
| `Media.Encode` | backend/server.py:307-327 | the per-frame loop writes a prefix of the transformed input: all of it without a failure, and at least one frame fewer when a frame raised |
| `Media.EncodeOutputs` | backend/server.py:307-327 | every written frame is the transformation of the input frame at the same position |
| `Media.EncodeFailure` | backend/server.py:307-350 | a failure is the exception of the first frame not written |
| `Media.EncodeSucceedsIff` | backend/server.py:307-350 | the loop ends without a failure exactly when no frame's transformation raises |
| `Media.EncodeSticky` | backend/server.py:343-350 | once a frame has raised, the later frames change nothing: the exception leaves the loop |
| `Media.EncodeFailsAt` | backend/server.py:343-350 | a frame that raises after a clean prefix decides the outcome: the prefix's output and that frame's exception |
| `ChunkEncoder.PencilBlurSize` | backend/server.py:120-122 | the pencil blur kernel is odd and at least 5, and lies in [7, 15] for intensities in [0, 1] |
| `ChunkEncoder.CartoonColours` | backend/server.py:168 | the cartoon colour count is at least 4, and lies in [6, 9] for intensities in [0, 1] |
| `ChunkEncoder.CropOrigin` | backend/server.py:311-313 | the clamped crop origin is non-negative, keeps a crop that fits inside the frame, keeps an in-bounds origin unchanged, and is 0 for a crop at least as large as the frame |
| `ChunkEncoder.CropFrameSize` | backend/server.py:309-314 | on a frame of the reported size a crop yields `min(w, W)` by `min(h, H)` pixels taken at the clamped origin |
| `ChunkEncoder.WriterDims` | backend/server.py:258-265 | the writer is opened at the crop size if there is a crop, else at the resize size, else at the source size |
| `ChunkEncoder.WriterDimsIgnoreResize` | backend/server.py:258-265 | with both a crop and a resize of different sizes, the writer size is not the size of the resized frames it receives |
| `ChunkEncoder.TransformDispatch` | backend/server.py:307-324 | without crop and resize, "pencil" applies the sketch with the derived blur size, "cartoon" the cartoon effect with the derived colour count, and any other style passes the frame through; a raising resize ends the frame |
| `ChunkEncoder.ChunkInput` | backend/server.py:281-301 | a chunk reads at most `end_frame - start_frame` frames |
| `ChunkEncoder.ChunkRunOf` | backend/server.py:242-358 | the frames a chunk reads are at most its length |
| `ChunkEncoder.ProcessVideoChunk` | backend/server.py:242-358 | the result is true exactly when the capture opened and no frame raised; the disk is unchanged for an unopened capture and otherwise has the old chunk file replaced by what an opened writer received; the status entry is the failure record ("Cannot open video file" or the exception), or the last batch record, or unchanged when nothing was read; every batch of one to five frames published its record in order |
| `ChunkEncoder.WriteChunk` | backend/server.py:268-341 | once the capture is open: true exactly when the encoding has no failure; the old file is unlinked and the first codec that opens (avc1, then mp4v) leaves the frames it received; the batches published their records |
| `ChunkEncoder.RunEntries` | backend/server.py:331-350 | what the batch loop published fixes the status entry the chunk leaves |
| `ChunkEncoder.EncodeChunk` | backend/server.py:284-341 | the batch loop writes exactly the encoding of the chunk's input and publishes one record per batch, or the failure record for the failing batch |
| `ChunkEncoder.CompletedBatch` | backend/server.py:329-335 | after a batch whose frames all encoded, its progress record is published |
| `ChunkEncoder.FailedBatch` | backend/server.py:343-350 | after the batch whose frame raised, the failure record is published and the chunk is done |
| `ChunkEncoder.PublishBatch` | backend/server.py:331-335 | the batch record is appended to what was published so far |
| `ChunkEncoder.PublishFailure` | backend/server.py:345-349 | the failure record replaces the entry |
| `ChunkEncoder.NextBatch` | backend/server.py:286-327 | one pass reads `min(5, frames left, frames available)` frames and extends the encoding by them, or stops it at the frame that raised |
| `ChunkEncoder.ReadBatch` | backend/server.py:286-298 | the batch is the next `min(5, frames left, frames available)` frames of the stream, in order |
| `ChunkEncoder.EncodeBatch` | backend/server.py:304-327 | the batch's frames are transformed and written in order until one raises |
| `Concat.ManifestCons` | backend/server.py:606-608 | the manifest of a list is the first chunk's line followed by the manifest of the rest |
| `Concat.BeforeFirstOf` | backend/server.py:608 | a quoted path without a quote reads back up to its closing quote |
| `Concat.ParseLine` | backend/server.py:608 | one `file '<path>'` line of a quote-free path is read back as that path, followed by whatever the rest of the manifest holds |
| `Concat.ManifestRoundTrip` | backend/server.py:605-608 | reading the manifest back gives exactly the chunk paths, in order, whenever no path holds a quote |
| `Concat.WriteManifest` | backend/server.py:605-608 | the manifest file holds one line per chunk, in chunk order, and nothing else on disk changes |
| `Concat.JoinedAppend` | backend/server.py:219-226 | the frames read from two lists of chunks, one after the other, are the frames of the concatenated list |
| `Concat.JoinedPlacesChunk` | backend/server.py:219-226 | each chunk's frames occupy a contiguous block of the combined video right after the frames of the chunks before it: nothing is reordered, dropped or duplicated |
| `Concat.FirstLargest` | backend/server.py:237 | `max(..., key=size)` picks a chunk no other chunk is larger than, and the first such chunk |
| `Concat.CombineTouchesOnlyOutput` | backend/server.py:196-239 | the OpenCV combiner writes no file but the output and its ".avi" sibling, and when the mp4v writer does not open (and nothing raised) the output itself is left as it was |
| `Concat.CombineOutput` | backend/server.py:196-239 | with the mp4v writer open the output holds every chunk's frames in order at the first chunk's frame size; after an OpenCV error it is a copy of a chunk no other chunk is larger than |
| `Concat.CombineChunksOpencv` | backend/server.py:196-239 | the disk after `combine_chunks_opencv`: nothing for no chunks; the largest chunk copied after an error; otherwise all chunks' frames written through mp4v at the output, else XVID at the ".avi" path, else nowhere |
| `Concat.TriedOrder` | backend/server.py:612-644 | the chain starts with the re-encode, only moves forward, stops at the first success; the stream copy runs exactly after a non-zero exit of the re-encode, and the OpenCV combiner exactly when neither FFmpeg run succeeded |
| `Concat.ChainTouchesOnlyOutput` | backend/server.py:612-644 | the chain writes no file but the output and its ".avi" sibling; a successful re-encode leaves exactly what FFmpeg wrote |
| `Concat.RunChain` | backend/server.py:612-644 | the strategies run are those of the chain order and the disk is what the runs and the combiner leave |
| `Concat.Without` | backend/server.py:647-649 | removing a list of paths keeps exactly the other files, unchanged |
| `Concat.RemoveAll` | backend/server.py:647-649 | unlinking the temporaries one by one removes exactly them |
| `Concat.ConcatCleansUp` | backend/server.py:603-649 | after the multi-chunk branch no chunk file and no manifest remain, and every file other than the output and its ".avi" sibling is as it was |
| `Concat.ConcatenateChunks` | backend/server.py:603-649 | the multi-chunk branch writes the manifest, runs the chain in its order and then removes every chunk and the manifest |
| `JobRunner.RetryWaits` | backend/server.py:680-688 | the waits announced before the second and the third attempt are 2 and 4 seconds, with the attempt counted out of 3 |
| `JobRunner.ChunkRuns` | backend/server.py:569-581 | there is one chunk run per planned chunk |
| `JobRunner.ChunkRunsAt` | backend/server.py:569-581 | chunk `k` of the plan is processed from its own frame range into the `k`-th chunk file |
| `JobRunner.ChunkRunsAre` | backend/server.py:569-581 | every chunk of the plan is run on its range into its own numbered file |
| `JobRunner.TempPaths` | backend/server.py:571 | the chunk files of the first `n` chunks are the numbered chunk paths 0 to `n - 1` |
| `JobRunner.FirstFailure` | backend/server.py:583-590 | the chunk the loop stops at, if any, is one of the chunks run |
| `JobRunner.FirstFailureSpec` | backend/server.py:583-590 | the chunk the loop stops at fails and every chunk before it succeeded; the loop stops nowhere exactly when every chunk succeeds |
| `JobRunner.FirstFailureSticky` | backend/server.py:583-590 | once a chunk has failed, later chunks do not change where the loop stopped |
| `JobRunner.ChunksDiskKeepsTemps` | backend/server.py:583-585 | when all chunks succeed every one of them has its file on disk: a later chunk never removes an earlier one's file |
| `JobRunner.ChunksDiskFrame` | backend/server.py:569-590 | the chunk loop changes no file but the chunk files |
| `JobRunner.TempPathsAppend` | backend/server.py:584 | a successful chunk appends its own path to the list of chunk files |
| `JobRunner.TempsAreNotOutput` | backend/server.py:541-571 | no chunk file is the output file |
| `JobRunner.FinishCleansUp` | backend/server.py:600-654 | after the join no chunk file is left, nor the manifest for several chunks, and a single chunk has become the output |
| `JobRunner.SeveralCleanUp` | backend/server.py:603-649 | with several chunks no chunk file and no manifest remain after the join |
| `JobRunner.SingleCleanUp` | backend/server.py:650-654 | a single chunk is copied to the output and its file removed |
| `JobRunner.ErrorOf` | backend/server.py:538-663 | an attempt has an error message exactly when it did not deliver the output |
| `JobRunner.ChunksPhase` | backend/server.py:569-590 | a chunk loop that stopped at a chunk names one of the planned chunks and leaves its record; one that ran through leaves none of its own |
| `JobRunner.PlanPhase` | backend/server.py:569-590 | the same for a given plan and given chunk runs |
| `JobRunner.PhaseFromAgrees` | backend/server.py:569-590 | the loop read step by step, from any chunk it reaches, comes to what the first failing chunk determines |
| `JobRunner.PhaseKeepsChunks` | backend/server.py:583-585 | when no chunk fails, every chunk's file is on the disk the loop leaves |
| `JobRunner.FinishedAttempt` | backend/server.py:593-671 | an attempt whose chunks all succeeded reaches the size check and leaves a record |
| `JobRunner.FailedPhase` | backend/server.py:583-590 | when the loop stops at chunk `k`, every earlier chunk succeeded and its file is gone; the failed chunk's own file is not removed and holds what its writer received; no other file changed |
| `JobRunner.FailedPlanPhase` | backend/server.py:583-590 | the same for a given plan and given chunk runs |
| `JobRunner.OneChunkOutput` | backend/server.py:650-654 | a window processed as one chunk gives an output holding exactly that chunk's encoded frames at the writer's frame size |
| `JobRunner.ReachedCleansUp` | backend/server.py:593-671 | an attempt that got past the chunks leaves none of its chunk files, nor the manifest for several chunks, and delivers exactly when the output exists with at least 1000 bytes |
| `JobRunner.UnopenedInput` | backend/server.py:545-563 | an upload OpenCV cannot open fails with "float division by zero" under any non-empty trim dict, and otherwise plans no chunk and fails the size check |
| `JobRunner.RunAttempt` | backend/server.py:532-673 | one attempt: the error is that of how it ended (missing input, trim error, the failing chunk's frame, undersized output) or none; the disk, the last record and the document (completed once past the chunks) are the attempt's |
| `JobRunner.RunPlanned` | backend/server.py:565-673 | the attempt from the chunk loop on leaves a record, the attempt's files and error, and marks the project completed once past the chunks |
| `JobRunner.RunChunks` | backend/server.py:565-590 | the chunk loop stops at the first failing chunk, leaves the disk that chunk order determines and its last record, and no other entry changes |
| `JobRunner.RunPlan` | backend/server.py:569-590 | the loop over a given plan agrees with its step-by-step reading from the first chunk |
| `JobRunner.ChunkStep` | backend/server.py:570-590 | one pass runs chunk `k` into its file and leaves its end record; on failure it also removes the earlier chunk files |
| `JobRunner.StepOf` | backend/server.py:570-581 | chunk `k`'s run and end record are those of its range and its "Processing chunk k+1" record |
| `JobRunner.ChunkBody` | backend/server.py:579-590 | the chunk, then on failure the removal of the chunk files written before it |
| `JobRunner.PhaseStops` | backend/server.py:583-590 | the first chunk that fails is where the loop stops |
| `JobRunner.RunChunk` | backend/server.py:570-585 | the "Processing chunk k+1 - style effect" record at `(i - start) / total * 90`, then the chunk; it succeeds exactly when the chunk returned true and left its file |
| `JobRunner.EncodeChunk` | backend/server.py:579-585 | `success and chunk_output.exists()` is exactly the chunk run's success, and the record the chunk leaves replaces the chunk's start record |
| `JobRunner.ChunkEntriesAfter` | backend/server.py:573-581 | over the start record, the chunk leaves its end record (the start record itself when it read no frame) |
| `JobRunner.Finish` | backend/server.py:593-671 | the "Finalizing video..." record, the join, the project marked completed before the size check, then the completed record or the error "Output file not created or too small" |
| `JobRunner.JoinChunks` | backend/server.py:600-654 | the old output is removed, several chunks are concatenated, one chunk is copied to the output and removed |
| `JobRunner.TracedAppend` | backend/server.py:530-702 | the next attempt runs on the disk the previous one left |
| `JobRunner.DocsAfterAppend` | backend/server.py:657-660 | each attempt adds its completed mark to the collection the previous attempts left |
| `JobRunner.AttemptRecord` | backend/server.py:532-671 | a delivering attempt leaves the completed record; exactly the attempts stopped by a missing input or a trim error leave no record |
| `JobRunner.DocsAfterReached` | backend/server.py:657-660 | once any attempt got past the chunks the document is completed with the output path at 100%; if none did, the collection is untouched |
| `JobRunner.GaveUpKeepsOutput` | backend/server.py:657-701 | a job that gave up after an attempt had reached the size check is "failed" yet keeps its output path and a progress of 100 |
| `JobRunner.ProcessVideoBackground` | backend/server.py:525-702 | one to three attempts, each on the disk the previous one left; it stops at the first delivering attempt and otherwise makes three; only the job's entry changes; success leaves the completed record, giving up leaves "Processing failed after 3 attempts: <error of the third>" and marks the project failed |
| `JobRunner.RetryStep` | backend/server.py:530-702 | one pass of the retry loop: the attempt, then a "retrying" record with `2 ** attempt` seconds before attempts 1 and 2 fail over, or the "failed" record and the failed mark after attempt 3; only the job's entry changes |
| `JobRunner.StepSummary` | backend/server.py:675-702 | the records and the collection after one pass, from what the attempt and the `except` block each did |
| `Routes.UploadRejection` | backend/server.py:411-427 | an upload passes the checks exactly when there is a file whose content type starts with "video/" and whose size lies in [1000, 2 GiB]; a rejection is a 400, or a 413 exactly for an oversized video |
| `Routes.UploadRejectionOrder` | backend/server.py:411-427 | the checks come in the source's order (file, type, too large, too small) with their details, and the repeated type check never fires |
| `Routes.ExceptionTexts` | backend/server.py:476-478 | `str()` of an `HTTPException` is its code, a colon and its detail |
| `Routes.Duration` | backend/server.py:446 | the duration is 0 without a positive fps, and otherwise the frame count divided by the fps |
| `Routes.ReadRest` | backend/server.py:419 | a read returns the rest of the content and leaves the stream at its end |
| `Routes.SavedFileIsEmpty` | backend/server.py:419-435 | the first read returns the whole upload, so the second, whose content is saved, returns 0 bytes |
| `Routes.UploadVideo` | backend/server.py:407-478 | every failure is a 500 that leaves the collection alone: a failed check carries the text of its exception; past the checks the saved file is empty, and unless OpenCV opens an empty file the answer is 500 "400: Invalid video file"; only if it does is the new project stored under the fresh id, with the empty file's metadata in the reply |
| `Routes.UploadFailsOnlyWith500` | backend/server.py:476-478 | the detail of the 500 starts with the original code and ends with the original detail |
| `Routes.KeepAllowed` | backend/server.py:766 | the filter keeps only letters, digits and `.-_`, and never lengthens the text |
| `Routes.KeepAllowedAppend` | backend/server.py:766 | the filter distributes over concatenation |
| `Routes.KeepAllowedFixes` | backend/server.py:766 | a text of allowed characters comes through unchanged |
| `Routes.KeepAllowedMembers` | backend/server.py:766 | a character is in the filtered text exactly when it is in the text and allowed |
| `Routes.KeepAllowedIdempotent` | backend/server.py:766 | filtering twice is filtering once |
| `Routes.DefaultStyleKept` | backend/server.py:765 | the default style "processed" survives the filter |
| `Routes.SafeDownloadName` | backend/server.py:765-766 | the offered name holds only allowed characters (so no '/' or quote), is the filtered stem, "_", the filtered style and ".mp4", and ends in ".mp4" |
| `Routes.SafeDownloadNameIdempotent` | backend/server.py:765-766 | sanitising the offered name again changes nothing |
| `Routes.SafeDownloadNameOfCleanInput` | backend/server.py:765-766 | a clean file name and a non-empty clean style come through as "<stem>_<style>.mp4" |
| `Routes.SafeDownloadNameDefault` | backend/server.py:765-766 | a missing or empty style is offered as "<stem>_processed.mp4" |
| `Routes.PreviewPositions` | backend/server.py:801 | there are five preview positions |
| `Routes.PreviewPositionsShape` | backend/server.py:801 | for a non-negative count the positions are `total * i // 5`, start at 0 and never decrease, and lie before the last frame when there is one; a negative count truncates toward 0 |
| `Routes.TruncFifth` | backend/server.py:801 | `int(n / 5)` is the fifth of `n` truncated toward zero |
| `Routes.Present` | backend/server.py:804-812 | the frames that could be read are at most the positions tried |
| `Routes.GetVideoPreview` | backend/server.py:781-820 | a missing upload and an unopened one give 500s carrying the 404 and the 400; otherwise the previews of the five positions, in order, skipping positions that read nothing, at most five |
| `Routes.PreviewsComplete` | backend/server.py:801-812 | when the capture reads every frame it reports, all five previews are there and the `i`-th is of frame `total * i // 5` |
| `Routes.PreviewsAt` | backend/server.py:804-812 | five readable positions give five previews, the `i`-th of the frame at position `i` |
| `Routes.PresentAll` | backend/server.py:806-812 | when every position reads a frame, every preview is kept, in order |
| `SimpleProcessor.SimpleEffectFallsBack` | simple_video_processor.py:145-149 | "pencil" and "cartoon" yield their simple effect's result, or the frame itself when the effect raises (lines 39-41, 63-64); any other style leaves the frame as it is |
| `SimpleProcessor.SimpleFps` | simple_video_processor.py:82-84 | the rate used is positive: the reported one, or 30 when that is 0 or less |
| `SimpleProcessor.SimpleWindow` | simple_video_processor.py:90-96 | without a trim or with an empty dict the window is the whole reported length; with any non-empty dict it is clamped to start at 0 or later and end at the reported length or earlier |
| `SimpleProcessor.SimpleWindowOfTrim` | simple_video_processor.py:94-96 | a trim inside the video gives the truncated exact products of its times and the fps |
| `SimpleProcessor.SimpleWindowOfStart` | simple_video_processor.py:94-96 | a trim with only a start time ends at the exact product `total_frames / fps * fps`, the reported length |
| `SimpleProcessor.TruncAtMost` | simple_video_processor.py:96 | truncating a value not above `n` gives at most `n` |
| `SimpleProcessor.TruncOfInt` | simple_video_processor.py:96 | truncating an integral float gives that integer |
| `SimpleProcessor.WindowsDiffer` | simple_video_processor.py:94-96 | for the same negative start time the backend's window starts before 0 and this one at 0 |
| `SimpleProcessor.SimpleDims` | simple_video_processor.py:98-105 | the output size is the resize size if given, else the crop size, else the source size |
| `SimpleProcessor.DimsPreferenceDiffers` | simple_video_processor.py:100-105 | with both a crop and a resize this processor writes at the resize size while the backend's chunk writer uses the crop size |
| `SimpleProcessor.SimpleCrop` | simple_video_processor.py:132-139 | the clamped crop has a non-negative origin, fits inside the reported frame with `min(w, W)` by `min(h, H)` pixels, and an in-bounds crop is kept as it is |
| `SimpleProcessor.PlainFramesNeverRaise` | simple_video_processor.py:131-149 | without a crop or a resize a frame cannot make the loop raise: it only gets its effect |
| `SimpleProcessor.TempOutput` | simple_video_processor.py:108 | the temporary ends in ".avi" |
| `SimpleProcessor.TempIsNotMp4Output` | simple_video_processor.py:108 | an output path ending in ".mp4" is never the temporary |
| `SimpleProcessor.SimpleCodec` | simple_video_processor.py:110-120 | the writer is MJPG if that opens, else XVID, and there is one exactly when one of them opens |
| `SimpleProcessor.ProcessVideoBulletproof` | simple_video_processor.py:67-189 | the result and the disk are those of the run: the steps of the source in order |
| `SimpleProcessor.WriteTemp` | simple_video_processor.py:114-189 | from the writer choice on: no writer or a raising frame fails and removes the temporary; no frame read fails with "No frames were processed"; otherwise the conversion or the move |
| `SimpleProcessor.WriteFrames` | simple_video_processor.py:126-153 | the frame loop writes exactly the encoding of the frames read, stopping at the first that raises |
| `SimpleProcessor.Finalize` | simple_video_processor.py:162-189 | FFmpeg's result is kept when it exited with 0 and an output exists; otherwise the temporary is moved to the output; the temporary is then gone |
| `SimpleProcessor.BulletproofResult` | simple_video_processor.py:67-189 | a run succeeds exactly when the input opens, a writer opens, no frame raises and at least one frame is processed; it returns the number of frames written, between 1 and the reported count; an unopened input raises the `UnboundLocalError` of the `finally` block and changes nothing |
| `SimpleProcessor.BulletproofFrames` | simple_video_processor.py:126-153 | the frames written are the transforms of the frames read from the start of the window, in order |
| `SimpleProcessor.DeliverFiles` | simple_video_processor.py:162-189 | after frames were written the temporary is gone, no file but the output changes, and the output holds FFmpeg's file when it exited with 0 and left one, the temporary's content when it did not succeed |
| `SimpleProcessor.BulletproofFiles` | simple_video_processor.py:67-189 | on an ".mp4" output: no temporary is left; a failed run leaves the output as it was; a successful one leaves FFmpeg's conversion or the frames written; no other file changes |
| `SimpleProcessor.WrittenFiles` | simple_video_processor.py:114-189 | the same once the capture has opened, for any temporary distinct from the output |
| `Advanced.BrushSize` | advanced_features.py:23 | for an intensity in [0, 1] the oil-painting brush size is between 3 and 7 |
| `Advanced.BrushStrokes` | advanced_features.py:24 | for an intensity in [0, 1] the number of brush strokes is between 1 and 3 |
| `Advanced.AnimeColours` | advanced_features.py:88 | the anime quantiser always uses at least 4 colours, and 6 to 8 for an intensity in [0, 1] |
| `Advanced.ParametersGrow` | advanced_features.py:23-24 | brush size, stroke count and colour count never decrease as the intensity grows |
| `Advanced.EffectsFallBack` | advanced_features.py:19-150 | watercolor, anime and vintage return their filter's result, or the input frame when the filter raises; oil painting falls back to the bilateral blend when the painting filter raises, and raises only when that blend does |
| `Advanced.Effects` | advanced_features.py:240-248 | the effect names of the recommendations, one per recommendation, in order |
| `Advanced.Recommend` | advanced_features.py:213-248 | there are always one to three recommendations |
| `Advanced.RecommendShape` | advanced_features.py:213-248 | the effects are "vintage_film" exactly when the brightness is under 80, then "anime" exactly when the motion is over 5, then "oil_painting" when the colour diversity is over 50000 and "pencil" otherwise |
| `Advanced.RecommendMembers` | advanced_features.py:213-238 | each of the four effects is recommended if and only if its own condition holds on the averages |
| `Advanced.RecommendOrder` | advanced_features.py:213-248 | a dark video is recommended "vintage_film" first, the palette effect always comes last, and the count is one plus the number of brightness and motion conditions met |
| `Advanced.RecommendDistinct` | advanced_features.py:213-248 | no effect is recommended twice |
| `Advanced.SampleIndices` | advanced_features.py:170 | `min(20, total)` sample positions |
| `Advanced.SampleIndicesRange` | advanced_features.py:170 | every sample position is a frame of the video, from 0 to total - 1 |
| `Advanced.SampleIndicesEnds` | advanced_features.py:170 | a non-empty video is sampled at its first frame and at its last |
| `Advanced.SampleEveryFrame` | advanced_features.py:170 | a video of 2 to 20 frames is sampled at every frame, in order |
| `Advanced.SampledCounts` | advanced_features.py:173-198 | without a flow failure, one brightness and one colour count per frame read, at most one per sample; a previous frame exactly when some frame was read; fewer motion values than frames read |
| `Advanced.SampledStopped` | advanced_features.py:185-189 | once the optical flow has raised, the later samples change nothing |
| `Advanced.MeanBounds` | advanced_features.py:206-208 | a mean lies between the least and the greatest of its values |
| `Advanced.AnalysisShape` | advanced_features.py:156-252 | an unopened video gives "Cannot open video"; a finished analysis reports the video's frame count and the recommendations of its own averages, one to three of them; a single readable frame gives a motion of 0 |
| `Advanced.AnalyzeVideoContent` | advanced_features.py:156-252 | the sampling loop gives the analysis of the specification, including the negative-count, no-frame and flow-failure errors |
| `Advanced.SampledNext` | advanced_features.py:173-198 | sampling one more position applies one sampling step |
| `Advanced.CellsDisjointInside` | advanced_features.py:273-276 | the four cells of the 2x2 grid lie inside the frame and no pixel belongs to two cells |
| `Advanced.Cell` | advanced_features.py:299-317 | a cell that succeeds has half the frame's width and half its height |
| `Advanced.CellOutcomes` | advanced_features.py:288-317 | one outcome per effect, every successful one of the cell's size |
| `Advanced.CellOutcomesAre` | advanced_features.py:288-317 | outcome `k` is the cell of effect `k` |
| `Advanced.Collect` | advanced_features.py:288-322 | a collection that succeeds holds every cell's value, in order |
| `Advanced.CollectRaise` | advanced_features.py:288-331 | any cell that raises makes the grid frame raise |
| `Advanced.CollectFirstRaise` | advanced_features.py:288-331 | the grid frame raises the exception of the first cell that raises |
| `Advanced.CollectAll` | advanced_features.py:288-322 | when every cell succeeds the collection is exactly their values |
| `Advanced.GridRaster` | advanced_features.py:283-317 | the grid frame has the source's full width and height |
| `Advanced.PlaceCell` | advanced_features.py:312-317 | the slice assignment writes the cell into its rectangle and leaves every other pixel as it was |
| `Advanced.AddCell` | advanced_features.py:309-317 | placing the next cell turns a grid holding the first `k` cells into one holding the first `k + 1` |
| `Advanced.GridPixelStep` | advanced_features.py:312-317 | placing cell `k` changes exactly the pixels of its rectangle |
| `Advanced.FillGrid` | advanced_features.py:288-317 | filling a zeroed grid cell by cell gives the grid of the cells' outcomes, or the first exception |
| `Advanced.Snapshot` | advanced_features.py:283 | the frame read off the grid array has the array's dimensions |
| `Advanced.SnapshotOf` | advanced_features.py:312-324 | a grid array whose every pixel is that of the placed cells reads off as their grid frame |
| `Advanced.GridFrame` | advanced_features.py:283-324 | one grid frame: black when the frame cannot be read (the inner `break`), else the grid of the first four effects' cells, or their first exception |
| `Advanced.GridLength` | advanced_features.py:282 | the grid video is meant to have at most 300 frames |
| `Advanced.CreateComparisonGrid` | advanced_features.py:258-331 | returns True exactly when no grid frame raised; the output holds the frames written before any exception when the writer opened, and the disk is otherwise unchanged |
| `Advanced.GridFramesSticky` | advanced_features.py:329-331 | after a grid frame raised, no later frame is made |
| `Advanced.GridFramesLength` | advanced_features.py:282-324 | `n` frames are written when none raises, and never more than `n` |
| `Advanced.GridRunShape` | advanced_features.py:261-282 | an empty path list returns False and changes nothing; the grid video never has more than `min(total, 300)` frames |
| `Advanced.DefaultGridFails` | advanced_features.py:258-300 | with the default effects and a readable first frame the grid always returns False, since the pencil cell calls a method the class does not have |

## Left out

- Pixel arithmetic of every filter: the filters themselves (pencil, cartoon, blur, bilateral, oil painting, watercolor, anime, vintage), resize and colour conversion are `Toolkit` parameters. The parameters derived from the intensity are modelled.
- `Advanced.GridFrame`: the grid frames are written without the `effect.upper()` label that `cv2.putText` draws on each cell; `Advanced.GridRaster` and `Advanced.FillGrid` hold only the placed cells and black.
- Frame rates: the writers' fps and the timing of a video are not modelled. The fps only decides the trim window and the duration.
- The JPEG and base64 encoding of the preview frames: only the preview positions and their reads are modelled.
- The download route: only the offered file name is modelled. Its file lookup and its 404/400 answers are not.
- The health endpoint, `get_projects` and the root route: they only read or echo data.
- `asyncio.sleep` and the retry waits, and the FFmpeg timeouts' durations: time is not modelled. The wait shown in the retry message is modelled.
- Logging: it has no effect on the result.
- Database failures: MongoDB is the `ProjectStore` class, whose operations always succeed.
- `ChunkEncoder.WriteChunk`, `ChunkEncoder.ProcessVideoChunk`, `JobRunner.OneChunkOutput`: the chunk writer is taken to keep every frame it receives, whatever its size. OpenCV's writer drops a frame whose size differs from the one it was opened at. That happens when a crop is combined with a different resize (`ChunkEncoder.WriterDimsIgnoreResize`), or when a crop reaches past the frame's edge. The real chunk file then holds fewer frames than the model's, or none.
- `Routes.UploadVideo`: the empty saved file is not written to the disk model. The success reply's `message` and `size_mb` fields are not part of `UploadReply`.
- `Common.BaseName`: a path ending in '/' gives "" here, while `pathlib` first drops the trailing slash. No caller passes such a path.
- Floating point: brightness, motion, intensity and progress are exact reals or fractions. `np.linspace` rounding is modelled as exact floors.
- `Planner.TrimWindow`: the frame bounds truncate exact products of seconds and fps, while the source truncates a rounded double. In doubles the default end `int(total_frames / fps * fps)` can be `total_frames - 1` (29 frames at 23.976 fps give 28), and a start such as 0.29 s at 100 fps gives frame 28 where the model gives 29.
- `SimpleProcessor.SimpleWindow`: the same exact products; with doubles its default end and its bounds can be one frame lower (this also holds for `SimpleProcessor.SimpleWindowOfTrim` and `SimpleProcessor.SimpleWindowOfStart`).
- `Media.Capture.StreamFrom`: a seek before frame 0 is taken as a seek to frame 0. The job seeks to its unclamped start frame, which can be negative (`Planner.TrimWindowIsNotClamped`), and what OpenCV does with such a seek is assumed, not known.
- `ChunkEncoder.ProcessVideoChunk`, `SimpleProcessor.ProcessVideoBulletproof`: the `Crop` and `Resize` records always hold every key. A partial crop or resize dict, which the request's `Dict[str, int]` allows, raises `KeyError` in the source; the model has no such path.
- `Progress.Project`: the document keeps only the file name, status, progress, style, output path and error. The fields `original_size`, `duration`, `width`, `height`, `fps`, `created_at` and `processing_params` are dropped, so `Progress.ProjectStore.MarkProcessing` does not store the `processing_params` update.
- `Routes.IsAlnum`: accepts ASCII letters and digits only, where Python's `str.isalnum` also accepts other Unicode letters and digits.
- `SimpleProcessor`: the exact text of the `UnboundLocalError` varies between Python versions; the model uses one form of it.
- `Path.resolve` in the manifest: it is the identity, because the root is taken to be absolute.
- Concurrency: jobs of different projects running at once, and the behaviour of the status dictionary under them.
