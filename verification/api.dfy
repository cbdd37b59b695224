/**
 * The HTTP API: `POST /jobs` validates a submission, inserts the record as
 * `pending` and then enqueues the job on the lane its priority selects;
 * `GET /jobs/:id` returns a fixed projection of the record. The two queue
 * lanes are one object whose sequences the API appends to.
 */
module Api {
  import opened Wrappers
  import opened Json
  import opened Records
  import opened Store
  import opened Worker

  /** The fields of a request body; None is a field the body leaves out. */
  datatype Body = Body(jobType: Option<Json>, priority: Option<Json>, payload: Option<Json>)

  /** A validated submission, with its priority defaulted. */
  datatype Submission = Submission(jobType: Json, priority: Json, payload: Json)

  const DefaultPriority := JStr("default")
  const HighPriority := JStr("high")

  const RequiredMessage := "Type and payload are required"
  const InternalErrorMessage := "Internal Server Error"
  const NotFoundMessage := "Job not found"

  /** `!v`: the field is absent or falsy. */
  predicate Missing(v: Option<Json>) {
    v.None? || !Truthy(v.value)
  }

  /** The 400 check of `POST /jobs`: both `type` and `payload` must be
      truthy; `priority` is never checked. */
  function Validate(body: Body): (r: Result<Submission, string>)
    ensures r.Failure? <==> Missing(body.jobType) || Missing(body.payload)
    ensures r.Failure? ==> r.error == RequiredMessage
    ensures r.Success? ==>
              && Truthy(r.value.jobType) && Truthy(r.value.payload)
              && Some(r.value.jobType) == body.jobType
              && Some(r.value.payload) == body.payload
              && r.value.priority == (if body.priority.None? then DefaultPriority else body.priority.value)
  {
    if Missing(body.jobType) || Missing(body.payload) then Failure(RequiredMessage)
    else
      // Destructuring with a default replaces only an absent priority; an
      // explicit one, even null, is kept.
      var priority := if body.priority.None? then DefaultPriority else body.priority.value;
      Success(Submission(body.jobType.value, priority, body.payload.value))
  }

  datatype Lane = HighLane | DefaultLane

  /** Lane routing: exactly the priority `"high"` selects the high lane;
      every other value, null and unknown strings included, the default. */
  function LaneFor(priority: Json): (l: Lane)
    ensures l == HighLane <==> priority == HighPriority
    ensures l == DefaultLane <==> priority != HighPriority
  {
    if priority == HighPriority then HighLane else DefaultLane
  }

  datatype Backoff = Backoff(kind: string, delay: int)

  /** The options handed to the queue with each job. */
  datatype JobOptions = JobOptions(jobId: JobId, attempts: int, backoff: Backoff)

  /** A job as enqueued: its name, its data and its options. */
  datatype QueuedJob = QueuedJob(name: Json, data: JobData, opts: JobOptions)

  /** The enqueue request for a stored submission: the queue's job id is the
      record's id (the queue's deduplication key), three attempts,
      exponential backoff from one second. */
  function EnqueueRequest(jobId: JobId, s: Submission): (q: QueuedJob)
    ensures q.opts.jobId == jobId && q.data.jobId == jobId
    ensures q.data.jobType == s.jobType && q.data.payload == s.payload && q.name == s.jobType
    ensures q.opts.attempts == 3
    ensures q.opts.backoff == Backoff("exponential", 1000)
  {
    QueuedJob(s.jobType, JobData(jobId, s.jobType, s.payload), JobOptions(jobId, 3, Backoff("exponential", 1000)))
  }

  /** The two lanes, each an ordered sequence of enqueued jobs. */
  class Broker {
    var highLane: seq<QueuedJob>
    var defaultLane: seq<QueuedJob>

    function LaneContents(l: Lane): seq<QueuedJob>
      reads this
    {
      match l
      case HighLane => highLane
      case DefaultLane => defaultLane
    }

    constructor ()
      ensures highLane == [] && defaultLane == []
    {
      highLane, defaultLane := [], [];
    }

    /** `queue.add`: append to one lane, or fail and change nothing. */
    method Add(l: Lane, job: QueuedJob, fault: Option<string>) returns (err: Option<string>)
      modifies this
      ensures err == fault
      ensures fault.Some? ==> highLane == old(highLane) && defaultLane == old(defaultLane)
      ensures fault.None? && l == HighLane ==> highLane == old(highLane) + [job] && defaultLane == old(defaultLane)
      ensures fault.None? && l == DefaultLane ==> defaultLane == old(defaultLane) + [job] && highLane == old(highLane)
    {
      err := fault;
      if fault.None? {
        match l
        case HighLane => highLane := highLane + [job];
        case DefaultLane => defaultLane := defaultLane + [job];
      }
    }
  }

  datatype ResponseBody = Created(jobId: JobId) | ErrorBody(error: string) | JobBody(job: JobView)

  datatype Response = Response(status: int, body: ResponseBody)

  /** Every enqueued job has a record in the table. */
  ghost predicate QueueBacked(rows: map<JobId, JobRecord>, high: seq<QueuedJob>, default: seq<QueuedJob>) {
    && (forall i | 0 <= i < |high| :: high[i].data.jobId in rows)
    && (forall i | 0 <= i < |default| :: default[i].data.jobId in rows)
  }

  /** The worker's writes never remove a row, so they keep every queued job
      backed by its record. */
  lemma WorkerWritesKeepQueueBacked(rows: map<JobId, JobRecord>, ws: seq<Write>,
                                    high: seq<QueuedJob>, default: seq<QueuedJob>)
    requires QueueBacked(rows, high, default)
    ensures QueueBacked(ApplyAll(rows, ws), high, default)
  {
  }

  /** `POST /jobs`. The id the database generates, its clock, and the
      failures of the INSERT and of the enqueue are parameters. The record
      is inserted before the job is enqueued, so a failed enqueue answers
      500 and leaves the `pending` record behind with nothing queued. */
  method SubmitJob(store: JobStore, broker: Broker, body: Body, newId: JobId, now: Timestamp,
                   insertFault: Option<DbError>, enqueueFault: Option<string>)
    returns (resp: Response)
    requires store.Valid()
    modifies store, broker
    ensures store.Valid()
    ensures Validate(body).Failure? ==>
              && resp == Response(400, ErrorBody(RequiredMessage))
              && store.rows == old(store.rows)
              && broker.highLane == old(broker.highLane) && broker.defaultLane == old(broker.defaultLane)
    ensures Validate(body).Success? && (insertFault.Some? || newId in old(store.rows)) ==>
              && resp == Response(500, ErrorBody(InternalErrorMessage))
              && store.rows == old(store.rows)
              && broker.highLane == old(broker.highLane) && broker.defaultLane == old(broker.defaultLane)
    ensures Validate(body).Success? && insertFault.None? && newId !in old(store.rows) ==>
              var s := Validate(body).value;
              && store.rows == old(store.rows)[newId := NewRecord(newId, s.jobType, s.priority, s.payload, now)]
              && store.rows[newId].status == Pending
              && (enqueueFault.Some? ==>
                    && resp == Response(500, ErrorBody(InternalErrorMessage))
                    && broker.highLane == old(broker.highLane) && broker.defaultLane == old(broker.defaultLane))
              && (enqueueFault.None? ==>
                    && resp == Response(201, Created(newId))
                    && broker.LaneContents(LaneFor(s.priority))
                       == old(broker.LaneContents(LaneFor(s.priority))) + [EnqueueRequest(newId, s)])
              && (enqueueFault.None? && LaneFor(s.priority) == HighLane ==> broker.defaultLane == old(broker.defaultLane))
              && (enqueueFault.None? && LaneFor(s.priority) == DefaultLane ==> broker.highLane == old(broker.highLane))
    ensures QueueBacked(old(store.rows), old(broker.highLane), old(broker.defaultLane)) ==>
              QueueBacked(store.rows, broker.highLane, broker.defaultLane)
  {
    var v := Validate(body);
    if v.Failure? {
      return Response(400, ErrorBody(RequiredMessage));
    }
    var s := v.value;
    var inserted := store.Insert(newId, s.jobType, s.priority, s.payload, now, insertFault);
    if inserted.Failure? {
      return Response(500, ErrorBody(InternalErrorMessage));
    }
    var jobId := inserted.value;
    var lane := LaneFor(s.priority);
    var err := broker.Add(lane, EnqueueRequest(jobId, s), enqueueFault);
    if err.Some? {
      return Response(500, ErrorBody(InternalErrorMessage));
    }
    resp := Response(201, Created(jobId));
  }

  /** The record as `GET /jobs/:id` shows it: every column but the payload,
      with the timestamps renamed `createdAt` and `updatedAt`. */
  datatype JobView = JobView(
    id: JobId,
    jobType: Json,
    status: Status,
    priority: Json,
    attempts: int,
    result: Option<Json>,
    error: Option<string>,
    createdAt: Timestamp,
    updatedAt: Timestamp)

  function Project(r: JobRecord): JobView {
    JobView(r.id, r.jobType, r.status, r.priority, r.attempts, r.result, r.error, r.createdAt, r.updatedAt)
  }

  /** The projection loses the payload and nothing else: two records look
      the same exactly when they differ at most in their payloads. */
  lemma ProjectionHidesOnlyPayload(a: JobRecord, b: JobRecord)
    ensures Project(a) == Project(b) <==> a.(payload := b.payload) == b
  {
  }

  /** The answer of `GET /jobs/:id` to the outcome of its SELECT: the first
      row's projection; 404 for no row and for a malformed id (SQLSTATE
      22P02); 500 for any other database error. */
  function LookupResponse(q: QueryResult): (resp: Response)
    ensures resp.status == 200 <==> q.Rows? && |q.rows| > 0
    ensures resp.status == 200 ==> resp.body == JobBody(Project(q.rows[0]))
    ensures resp.status == 404 <==>
              (q.Rows? && |q.rows| == 0) || (q.QueryFailed? && q.err.code == InvalidTextRepresentation)
    ensures resp.status == 404 ==> resp.body == ErrorBody(NotFoundMessage)
    ensures resp.status == 500 <==> q.QueryFailed? && q.err.code != InvalidTextRepresentation
    ensures resp.status == 500 ==> resp.body == ErrorBody(InternalErrorMessage)
  {
    match q
    case Rows(rows) =>
      if |rows| == 0 then Response(404, ErrorBody(NotFoundMessage))
      else Response(200, JobBody(Project(rows[0])))
    case QueryFailed(e) =>
      if e.code == InvalidTextRepresentation then Response(404, ErrorBody(NotFoundMessage))
      else Response(500, ErrorBody(InternalErrorMessage))
  }

  /** `GET /jobs/:id`: a stored id answers 200 with its record as last
      written; an absent one 404; a database error 404 when it reports a
      malformed id and 500 otherwise. */
  method GetJob(store: JobStore, id: JobId, fault: Option<DbError>) returns (resp: Response)
    requires store.Valid()
    ensures fault.None? && id in store.rows ==>
              resp == Response(200, JobBody(Project(store.rows[id]))) && resp.body.job.id == id
    ensures fault.None? && id !in store.rows ==> resp == Response(404, ErrorBody(NotFoundMessage))
    ensures fault.Some? && fault.value.code == InvalidTextRepresentation ==>
              resp == Response(404, ErrorBody(NotFoundMessage))
    ensures fault.Some? && fault.value.code != InvalidTextRepresentation ==>
              resp == Response(500, ErrorBody(InternalErrorMessage))
  {
    var q := store.Select(id, fault);
    resp := LookupResponse(q);
  }
}
