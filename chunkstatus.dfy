/** The records one chunk of the background job publishes in the status
    dictionary (backend/server.py, `process_video_chunk`), and the ghost
    account of the batch loop that states what was published when. */
module ChunkStatus {
  import opened Common
  import opened Media
  import opened Progress

  /** `min(95, processed / total * 100)`, as an exact fraction. */
  function ChunkProgress(processed: nat, total: int): (p: Percent)
    requires 0 < total
    ensures p.Valid() && 0 <= p.num <= 95 * p.den
  {
    if processed * 100 >= 95 * total then Percent(95, 1) else Percent(processed * 100, total)
  }

  /** The fraction has the value of the source's expression, and that value
      lies in [0, 95]. */
  lemma ChunkProgressValue(processed: nat, total: int)
    requires 0 < total
    ensures ChunkProgress(processed, total).Value() == MinReal(95.0, processed as real / total as real * 100.0)
    ensures 0.0 <= ChunkProgress(processed, total).Value() <= 95.0
  {
    var x := processed as real;
    var d := total as real;
    DivCompare(x * 100.0, d, 95.0);
    DivCompare(x * 100.0, d, 0.0);
    ScaleQuotient(x, d, 100.0);
  }

  function ChunkMessage(style: string, processed: nat, total: int): string {
    "Processing " + style + " effect: " + NatToString(processed) + "/" + IntToString(total) + " frames"
  }

  function BatchRecord(style: string, processed: nat, total: int): StatusRecord
    requires 0 < total
  {
    StatusRecord(Processing, ChunkProgress(processed, total), ChunkMessage(style, processed, total), None)
  }

  function FailureRecord(error: string): StatusRecord {
    StatusRecord(Failed, Percent(0, 1), "Processing error: " + error, None)
  }

  /** The frame counts after each batch ("marks") describe batches of one
      to five frames each. */
  ghost predicate Batched(marks: seq<nat>)
    decreases |marks|
  {
    marks == [] ||
      (Batched(marks[..|marks| - 1]) && Done(marks[..|marks| - 1]) + 1 <= Done(marks) <= Done(marks[..|marks| - 1]) + 5)
  }

  /** The count after the last batch. */
  function Done(marks: seq<nat>): nat {
    if marks == [] then 0 else marks[|marks| - 1]
  }

  /** Batch counts strictly increase, stay within the final count, and `k`
      batches hold at least `k` and at most `5 * k` frames. */
  lemma {:induction false} BatchedIncreasing(marks: seq<nat>)
    requires Batched(marks)
    ensures forall k, l | 0 <= k < l < |marks| :: marks[k] < marks[l]
    ensures forall k | 0 <= k < |marks| :: k + 1 <= marks[k] <= Done(marks)
    ensures |marks| <= Done(marks) <= 5 * |marks|
    decreases |marks|
  {
    if marks != [] {
      var init := marks[..|marks| - 1];
      BatchedIncreasing(init);
      forall k, l | 0 <= k < l < |marks| ensures marks[k] < marks[l] {
        assert marks[k] == init[k];
        if l < |marks| - 1 {
          assert marks[l] == init[l];
        }
      }
      forall k | 0 <= k < |marks| ensures k + 1 <= marks[k] <= Done(marks) {
        if k < |marks| - 1 {
          assert marks[k] == init[k];
        }
      }
    }
  }

  lemma BatchedAppend(marks: seq<nat>, m: nat)
    requires Batched(marks) && Done(marks) + 1 <= m <= Done(marks) + 5
    ensures Batched(marks + [m]) && Done(marks + [m]) == m
    ensures (marks + [m])[..|marks|] == marks
  {
    var ms := marks + [m];
    assert ms[..|ms| - 1] == marks;
    assert Done(ms) == m;
  }

  /** The records written after each batch. */
  ghost function BatchLog(id: string, style: string, total: int, marks: seq<nat>): seq<(string, StatusRecord)>
    requires marks == [] || 0 < total
  {
    seq(|marks|, k requires 0 <= k < |marks| => (id, BatchRecord(style, marks[k], total)))
  }

  lemma BatchLogAppend(id: string, style: string, total: int, marks: seq<nat>, m: nat)
    requires 0 < total
    ensures BatchLog(id, style, total, marks + [m]) ==
      BatchLog(id, style, total, marks) + [(id, BatchRecord(style, m, total))]
  {
  }

  /** Every record a chunk publishes after a batch is a "processing" record
      of its job, without a timestamp, whose progress is the source's
      `min(95, processed / total * 100)` for the frames counted so far and
      lies in [0, 95]. */
  lemma BatchLogProgress(id: string, style: string, total: int, marks: seq<nat>)
    requires 0 < total
    ensures forall k | 0 <= k < |marks| ::
      var e := BatchLog(id, style, total, marks)[k];
      && e.0 == id && e.1.status == Processing && e.1.timestamp.None?
      && e.1.message == ChunkMessage(style, marks[k], total)
      && e.1.progress.Value() == MinReal(95.0, marks[k] as real / total as real * 100.0)
      && 0.0 <= e.1.progress.Value() <= 95.0
  {
    forall k | 0 <= k < |marks| {
      ChunkProgressValue(marks[k], total);
    }
  }

  /** What the batch loop publishes, given the encoding `e` of the chunk's
      `n` input frames: batches of one to five frames; on success they
      count all `n` frames and each left its "processing" record; on failure
      the failing batch left a "failed" record instead, and the result has
      fewer frames than were read. */
  ghost predicate BatchesPublished<F>(entries0: map<string, StatusRecord>, log0: seq<(string, StatusRecord)>,
                                   entries: map<string, StatusRecord>, log: seq<(string, StatusRecord)>,
                                   id: string, style: string, total: int, n: nat, marks: seq<nat>, e: Encoded<F>)
  {
    && Batched(marks)
    && (marks != [] ==> 0 < total)
    && (e.failure.None? ==>
          && Done(marks) == n
          && log == log0 + BatchLog(id, style, total, marks)
          && entries == (if marks == [] then entries0 else entries0[id := BatchRecord(style, n, total)]))
    && (e.failure.Some? ==>
          && marks != [] && |e.out| < Done(marks) <= n
          && log == log0 + BatchLog(id, style, total, marks[..|marks| - 1]) + [(id, FailureRecord(e.failure.value))]
          && entries == entries0[id := FailureRecord(e.failure.value)])
  }

  /** The record a chunk leaves behind: the failure record, or the record
      of its last batch, or (when it read no frame) whatever was there. */
  lemma PublishedLast<F>(entries0: map<string, StatusRecord>, log0: seq<(string, StatusRecord)>,
                         entries: map<string, StatusRecord>, log: seq<(string, StatusRecord)>,
                         id: string, style: string, total: int, n: nat, marks: seq<nat>, e: Encoded<F>)
    requires BatchesPublished(entries0, log0, entries, log, id, style, total, n, marks, e)
    ensures e.failure.Some? ==> entries == entries0[id := FailureRecord(e.failure.value)]
    ensures e.failure.None? && n == 0 ==> entries == entries0
    ensures e.failure.None? && n > 0 ==> 0 < total && entries == entries0[id := BatchRecord(style, n, total)]
  {
    if marks != [] {
      BatchedIncreasing(marks);
    }
  }

  /** The status dictionary after `pos` frames were read in the batches
      `marks`, each of which published its record. */
  ghost predicate Published(entries0: map<string, StatusRecord>, log0: seq<(string, StatusRecord)>,
                            entries: map<string, StatusRecord>, log: seq<(string, StatusRecord)>,
                            id: string, style: string, total: int, pos: nat, marks: seq<nat>)
  {
    && Batched(marks)
    && Done(marks) == pos
    && Progressed(entries0, log0, entries, log, id, style, total, marks)
  }

  /** A loop that ends without a failure has published what the chunk
      promises. */
  lemma SuccessPublished<F>(entries0: map<string, StatusRecord>, log0: seq<(string, StatusRecord)>,
                            entries: map<string, StatusRecord>, log: seq<(string, StatusRecord)>,
                            id: string, style: string, total: int, n: nat, marks: seq<nat>, e: Encoded<F>)
    requires Published(entries0, log0, entries, log, id, style, total, n, marks)
    requires e.failure.None?
    ensures BatchesPublished(entries0, log0, entries, log, id, style, total, n, marks, e)
  {
  }

  /** The status dictionary and its log after the batches `marks`. */
  ghost predicate Progressed(entries0: map<string, StatusRecord>, log0: seq<(string, StatusRecord)>,
                             entries: map<string, StatusRecord>, log: seq<(string, StatusRecord)>,
                             id: string, style: string, total: int, marks: seq<nat>)
  {
    && (marks != [] ==> 0 < total)
    && log == log0 + BatchLog(id, style, total, marks)
    && entries == (if marks == [] then entries0 else entries0[id := BatchRecord(style, Done(marks), total)])
  }
}
