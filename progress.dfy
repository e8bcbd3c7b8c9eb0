/** The job status the backend publishes: the process-wide dictionary
    `processing_status` (one record per project id, overwritten in place),
    the project documents of the database, and the status route that reads
    both. */
module Progress {
  import opened Common

  /** Status values the records and the project documents use. */
  datatype Status = Uploaded | Starting | Processing | Retrying | Completed | Failed {
    function Name(): string {
      match this
      case Uploaded => "uploaded"
      case Starting => "starting"
      case Processing => "processing"
      case Retrying => "retrying"
      case Completed => "completed"
      case Failed => "failed"
    }
  }

  /** A progress value in percent, kept as the exact fraction `num / den`
      of the Python expression that produced it (a float there). */
  datatype Percent = Percent(num: int, den: nat) {
    predicate Valid() { 0 < den }

    function Value(): real
      requires Valid()
    {
      num as real / den as real
    }
  }

  /** One entry of `processing_status`; only some writers add a timestamp. */
  datatype StatusRecord = StatusRecord(status: Status, progress: Percent, message: string,
                                       timestamp: Option<real>)

  /** The in-memory status dictionary. `log` is every record ever written to
      it, in order, so that contracts can speak about what pollers could have
      observed between writes. */
  class ProgressSink {
    var entries: map<string, StatusRecord>
    ghost var log: seq<(string, StatusRecord)>

    constructor ()
      ensures entries == map[] && log == []
    {
      entries := map[];
      log := [];
    }

    /** `processing_status[id] = record` */
    method Put(id: string, record: StatusRecord)
      modifies this
      ensures entries == old(entries)[id := record]
      ensures log == old(log) + [(id, record)]
    {
      entries := entries[id := record];
      log := log + [(id, record)];
    }

    /** `cleanup_processing_status()`, as written. `hasattr(status,
        'timestamp')` asks a dict for an attribute, never for a key, so it is
        False for every entry: the else branch always runs, every entry gets
        the current time as its timestamp (replacing an older one), and no
        entry is ever removed however old it is. */
    method CleanupProcessingStatus(now: real)
      modifies this
      ensures entries.Keys == old(entries).Keys
      ensures forall id | id in entries :: entries[id] == old(entries)[id].(timestamp := Some(now))
      ensures log == old(log)
    {
      var pending := entries.Keys;
      while pending != {}
        invariant pending <= entries.Keys == old(entries).Keys
        invariant log == old(log)
        invariant forall id | id in entries ::
          entries[id] == if id in pending then old(entries)[id] else old(entries)[id].(timestamp := Some(now))
        decreases pending
      {
        var id :| id in pending;
        entries := entries[id := entries[id].(timestamp := Some(now))];
        pending := pending - {id};
      }
    }
  }

  /** The fields of a `VideoProject` document the core reads or writes. */
  datatype Project = Project(filename: string, status: Status, progress: Percent,
                             artStyle: Option<string>, outputPath: Option<string>,
                             errorMessage: Option<string>)

  /** The collection after marking a project completed; other fields of
      the document, and other documents, are kept. */
  function Completing(docs: map<string, Project>, id: string, outputPath: string): map<string, Project> {
    if id in docs
    then docs[id := docs[id].(status := Completed, outputPath := Some(outputPath), progress := Percent(100, 1))]
    else docs
  }

  /** The collection after marking a project failed: its output path and
      progress stay whatever they were. */
  function Failing(docs: map<string, Project>, id: string, message: string): map<string, Project> {
    if id in docs then docs[id := docs[id].(status := Failed, errorMessage := Some(message))] else docs
  }

  /** The `video_projects` collection. `update_one` on an id that is not
      stored changes nothing. */
  class ProjectStore {
    var docs: map<string, Project>

    constructor (initial: map<string, Project>)
      ensures docs == initial
    {
      docs := initial;
    }

    /** `insert_one` of a new document under `id`. */
    method Insert(id: string, doc: Project)
      modifies this
      ensures docs == old(docs)[id := doc]
    {
      docs := docs[id := doc];
    }

    /** `$set: {status: "processing", art_style}` */
    method MarkProcessing(id: string, style: string)
      modifies this
      ensures docs == if id in old(docs)
                      then old(docs)[id := old(docs)[id].(status := Processing, artStyle := Some(style))]
                      else old(docs)
    {
      if id in docs {
        docs := docs[id := docs[id].(status := Processing, artStyle := Some(style))];
      }
    }

    /** `$set: {status: "completed", output_path, progress: 100}` */
    method MarkCompleted(id: string, outputPath: string)
      modifies this
      ensures docs == Completing(old(docs), id, outputPath)
    {
      if id in docs {
        docs := docs[id := docs[id].(status := Completed, outputPath := Some(outputPath), progress := Percent(100, 1))];
      }
    }

    /** `$set: {status: "failed", error_message}` */
    method MarkFailed(id: string, message: string)
      modifies this
      ensures docs == Failing(old(docs), id, message)
    {
      if id in docs {
        docs := docs[id := docs[id].(status := Failed, errorMessage := Some(message))];
      }
    }
  }

  /** The body of a status reply (`ProcessingStatus`). */
  datatype StatusReply = StatusReply(projectId: string, status: Status, progress: Percent, message: Option<string>)

  /** GET /status/{id}: the in-memory record if there is one, else the stored
      project's status and progress with a generic message, else 404. */
  function GetProcessingStatus(sink: ProgressSink, store: ProjectStore, id: string): (r: HttpResult<StatusReply>)
    reads sink, store
    ensures r.Answer? <==> id in sink.entries || id in store.docs
    ensures id in sink.entries ==>
      r.body == StatusReply(id, sink.entries[id].status, sink.entries[id].progress, Some(sink.entries[id].message))
    ensures id !in sink.entries && id in store.docs ==>
      r.body.status == store.docs[id].status && r.body.progress == store.docs[id].progress
      && r.body.message == Some("Project status: " + store.docs[id].status.Name())
    ensures r.HttpError? ==> r.code == 404
  {
    if id in sink.entries then
      var e := sink.entries[id];
      Answer(StatusReply(id, e.status, e.progress, Some(e.message)))
    else if id in store.docs then
      var p := store.docs[id];
      Answer(StatusReply(id, p.status, p.progress, Some("Project status: " + p.status.Name())))
    else HttpError(404, "Project not found")
  }

  /** The request the processing route receives. */
  datatype ProcessingRequest = ProcessingRequest(projectId: string, artStyle: string, intensity: real)

  /** POST /process up to the point where the background job is scheduled:
      an unknown project is rejected, otherwise the status dictionary is
      cleaned up, the project's record is reset to "starting" at 0%, and the
      stored project is marked as processing. The route's blanket handler
      turns its own 404 into a 500 whose detail is `str()` of the 404. */
  method StartProcessing(req: ProcessingRequest, now: real, sink: ProgressSink, store: ProjectStore)
    returns (r: HttpResult<string>)
    modifies sink, store
    ensures req.projectId !in old(store.docs) ==>
      r == HttpError(500, "404: Project not found") && sink.entries == old(sink.entries)
      && store.docs == old(store.docs)
    ensures req.projectId in old(store.docs) ==>
      && r == Answer("Processing started")
      && sink.entries.Keys == old(sink.entries).Keys + {req.projectId}
      && sink.entries[req.projectId] == StatusRecord(Starting, Percent(0, 1), "Initializing processing...", Some(now))
      && (forall id | id in sink.entries && id != req.projectId ::
            sink.entries[id] == old(sink.entries)[id].(timestamp := Some(now)))
      && store.docs == old(store.docs)[req.projectId :=
           old(store.docs)[req.projectId].(status := Processing, artStyle := Some(req.artStyle))]
  {
    if req.projectId !in store.docs {
      return HttpError(500, "404: Project not found");
    }
    sink.CleanupProcessingStatus(now);
    sink.Put(req.projectId, StatusRecord(Starting, Percent(0, 1), "Initializing processing...", Some(now)));
    store.MarkProcessing(req.projectId, req.artStyle);
    r := Answer("Processing started");
  }
}
