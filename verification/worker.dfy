/**
 * The worker: one attempt of a job as the queue hands it over, and the
 * two listeners that record the attempt's end. Each of the three store
 * writes is best effort: a database error is logged and swallowed, and the
 * job goes on as if the write had happened.
 *
 * The two handlers call libraries (a CSV encoder and the file system, a
 * mail transport). What those calls return is an `Effects` parameter; what
 * the handler derives before calling them is modelled exactly.
 */
module Worker {
  import opened Wrappers
  import opened Json
  import opened Records
  import opened Store

  /** The `data` the API enqueues with each job. */
  datatype JobData = JobData(jobId: JobId, jobType: Json, payload: Json)

  /** A job as the queue hands it to the worker: its data and the number of
      attempts already made (0 on the first). */
  datatype QueueJob = QueueJob(data: JobData, attemptsMade: nat)

  /** How an attempt ends: the handler's return value, or the message of
      the error it throws. */
  datatype Outcome = Done(result: Json) | Thrown(message: string)

  /** What the libraries report: the CSV encoding and file write (an error
      message, or None on success), the `MAIL_FROM` setting, and the mail
      transport's answer (the message id it reports, possibly none, or an
      error message). */
  datatype Effects = Effects(
    csvWrite: Option<string>,
    mailFrom: Option<string>,
    sendMail: Result<Option<string>, string>)

  const CsvExportType := "CSV_EXPORT"
  const EmailSendType := "EMAIL_SEND"
  const OutputDir := "/usr/src/app/output"
  const DefaultSender := "noreply@example.com"
  const UnknownTypePrefix := "Unknown job type: "

  /** The attempt number of the attempt now starting. */
  function AttemptNumber(attemptsMade: nat): (n: AttemptNo)
    ensures n > attemptsMade
    ensures n - 1 == attemptsMade
  {
    attemptsMade + 1
  }

  /** The attempt-start write of `processJob`. */
  function StartWrite(job: QueueJob, now: Timestamp): (w: Write)
    ensures w.MarkProcessing? && w.id == job.data.jobId && w.at == now
    ensures w.attempt == job.attemptsMade + 1
  {
    MarkProcessing(job.data.jobId, AttemptNumber(job.attemptsMade), now)
  }

  /** V8's TypeError for reading a property of undefined or null. */
  function ReadOfMissing(what: string, name: string): string {
    "Cannot read properties of " + what + " (reading '" + name + "')"
  }

  /** `v.name`, which throws for null. */
  function ReadProperty(v: Json, name: string): (r: Result<Option<Json>, string>)
    ensures r.Failure? <==> v == JNull
    ensures r.Success? ==> r.value == Property(v, name)
  {
    if v == JNull then Failure(ReadOfMissing("null", name)) else Success(Property(v, name))
  }

  /** The CSV columns: the keys of the first record, or none when there is
      no record. `data.length` throws for undefined and null, is the element
      count of an array and the length of a string, and is not positive for
      anything else. */
  function CsvFields(data: Option<Json>): (r: Result<seq<string>, string>)
    ensures data.None? || data == Some(JNull) ==> r.Failure?
    ensures r.Success? ==> data.Some? && data.value != JNull
    ensures data == Some(JArr([])) ==> r == Success([])
    ensures data.Some? && data.value.JArr? && |data.value.items| > 0 ==> r == ObjectKeys(data.value.items[0])
    ensures data.Some? && data.value.JArr? && |data.value.items| > 0 && data.value.items[0].JObj? ==>
              r == Success(Keys(data.value.items[0].entries))
    ensures data.Some? && (data.value.JObj? || data.value.JNum? || data.value.JBool?) ==> r == Success([])
  {
    match data
    case None => Failure(ReadOfMissing("undefined", "length"))
    case Some(JNull) => Failure(ReadOfMissing("null", "length"))
    case Some(JArr(items)) => if |items| > 0 then ObjectKeys(items[0]) else Success([])
    case Some(JStr(s)) => if |s| > 0 then ObjectKeys(JStr([s[0]])) else Success([])
    case Some(_) => Success([])
  }

  /** The file a CSV export writes: `<jobId>.csv` in the output directory. */
  function OutputFilePath(jobId: JobId): (p: string)
    ensures |p| == |OutputDir| + 1 + |jobId| + 4
    ensures p[..|OutputDir| + 1] == OutputDir + "/"
    ensures p[|OutputDir| + 1..|p| - 4] == jobId
    ensures p[|p| - 4..] == ".csv"
  {
    var p := OutputDir + "/" + jobId + ".csv";
    assert p[|OutputDir| + 1..|p| - 4] == jobId;
    p
  }

  /** Two jobs never write the same file. */
  lemma DistinctJobsDistinctFiles(a: JobId, b: JobId)
    requires a != b
    ensures OutputFilePath(a) != OutputFilePath(b)
  {
  }

  /** What the CSV handler hands the encoder and the file system. */
  datatype CsvRequest = CsvRequest(fields: seq<string>, data: Json, filePath: string)

  /** The CSV handler up to the library calls: read `payload.data`, derive
      the columns and the output file. */
  function CsvRequestFor(jobId: JobId, payload: Json): (r: Result<CsvRequest, string>)
    ensures r.Success? <==> payload != JNull && CsvFields(Property(payload, "data")).Success?
    ensures r.Success? ==>
              && Property(payload, "data") == Some(r.value.data)
              && r.value.fields == CsvFields(Property(payload, "data")).value
              && r.value.filePath == OutputFilePath(jobId)
  {
    match ReadProperty(payload, "data")
    case Failure(m) => Failure(m)
    case Success(data) =>
      match CsvFields(data)
      case Failure(m) => Failure(m)
      case Success(fields) => Success(CsvRequest(fields, data.value, OutputFilePath(jobId)))
  }

  /** The CSV handler: its result names the file written. */
  function CsvOutcome(jobId: JobId, payload: Json, fx: Effects): (o: Outcome)
    ensures o.Done? <==> CsvRequestFor(jobId, payload).Success? && fx.csvWrite.None?
    ensures o.Done? ==> o.result == JObj([("filePath", JStr(OutputFilePath(jobId)))])
  {
    match CsvRequestFor(jobId, payload)
    case Failure(m) => Thrown(m)
    case Success(req) =>
      if fx.csvWrite.Some? then Thrown(fx.csvWrite.value)
      else Done(JObj([("filePath", JStr(req.filePath))]))
  }

  /** A mail as handed to the transport; absent fields stay undefined. */
  datatype Mail = Mail(from: string, to: Option<Json>, subject: Option<Json>, text: Option<Json>)

  /** `MAIL_FROM || 'noreply@example.com'`: an unset or empty setting gives
      the default sender. */
  function Sender(mailFrom: Option<string>): (s: string)
    ensures mailFrom.Some? && mailFrom.value != "" ==> s == mailFrom.value
    ensures mailFrom.None? || mailFrom == Some("") ==> s == DefaultSender
  {
    if mailFrom.Some? && mailFrom.value != "" then mailFrom.value else DefaultSender
  }

  /** The email handler up to the transport: destructure `to`, `subject`
      and `body` from the payload, which throws for null. */
  function MailFor(payload: Json, mailFrom: Option<string>): (r: Result<Mail, string>)
    ensures r.Failure? <==> payload == JNull
    ensures r.Success? ==>
              r.value == Mail(Sender(mailFrom), Property(payload, "to"), Property(payload, "subject"), Property(payload, "body"))
  {
    if payload == JNull then Failure("Cannot destructure property 'to' of 'payload' as it is null.")
    else Success(Mail(Sender(mailFrom), Property(payload, "to"), Property(payload, "subject"), Property(payload, "body")))
  }

  /** The email handler: its result carries the transport's message id
      (an undefined id leaves an empty object once serialised). */
  function EmailOutcome(payload: Json, fx: Effects): (o: Outcome)
    ensures o.Done? <==> payload != JNull && fx.sendMail.Success?
    ensures o.Done? && fx.sendMail.value.Some? ==> o.result == JObj([("messageId", JStr(fx.sendMail.value.value))])
    ensures o.Done? && fx.sendMail.value.None? ==> o.result == JObj([])
    ensures o.Thrown? && payload != JNull ==> o.message == fx.sendMail.error
  {
    match MailFor(payload, fx.mailFrom)
    case Failure(m) => Thrown(m)
    case Success(mail) =>
      // `mail` is what the transport is handed; its answer is `fx.sendMail`.
      match fx.sendMail
      case Failure(m) => Thrown(m)
      case Success(id) => Done(if id.Some? then JObj([("messageId", JStr(id.value))]) else JObj([]))
  }

  /** Whether `t` names one of the two handlers; comparison is strict, so
      only those exact strings match. */
  predicate KnownType(t: Json) {
    t == JStr(CsvExportType) || t == JStr(EmailSendType)
  }

  /** The dispatch on the job's type. */
  function Dispatch(data: JobData, fx: Effects): (o: Outcome)
    ensures o.Done? ==> KnownType(data.jobType)
    ensures !KnownType(data.jobType) ==> o == Thrown(UnknownTypePrefix + JsString(data.jobType))
    ensures data.jobType == JStr(CsvExportType) ==> o == CsvOutcome(data.jobId, data.payload, fx)
    ensures data.jobType == JStr(EmailSendType) ==> o == EmailOutcome(data.payload, fx)
  {
    if data.jobType == JStr(CsvExportType) then CsvOutcome(data.jobId, data.payload, fx)
    else if data.jobType == JStr(EmailSendType) then EmailOutcome(data.payload, fx)
    else Thrown(UnknownTypePrefix + JsString(data.jobType))
  }

  /** `processJob`: compute the attempt number, write the attempt start (a
      failed write is swallowed), then run the handler. The outcome does
      not depend on whether the write landed. */
  method ProcessJob(store: JobStore, job: QueueJob, now: Timestamp, fault: Option<DbError>, fx: Effects)
    returns (o: Outcome)
    requires store.Valid()
    modifies store
    ensures store.Valid()
    ensures o == Dispatch(job.data, fx)
    ensures store.rows == if fault.None? then Apply(old(store.rows), StartWrite(job, now)) else old(store.rows)
  {
    var attemptNumber := AttemptNumber(job.attemptsMade);
    var err := store.Update(MarkProcessing(job.data.jobId, attemptNumber, now), fault);
    o := Dispatch(job.data, fx);
  }

  /** The `completed` listener: record the result. */
  method HandleCompleted(store: JobStore, job: QueueJob, result: Json, now: Timestamp, fault: Option<DbError>)
    requires store.Valid()
    modifies store
    ensures store.Valid()
    ensures store.rows == if fault.None? then Apply(old(store.rows), MarkCompleted(job.data.jobId, result, now))
                          else old(store.rows)
  {
    var err := store.Update(MarkCompleted(job.data.jobId, result, now), fault);
  }

  /** The `failed` listener: record the error's message. */
  method HandleFailed(store: JobStore, job: QueueJob, message: string, now: Timestamp, fault: Option<DbError>)
    requires store.Valid()
    modifies store
    ensures store.Valid()
    ensures store.rows == if fault.None? then Apply(old(store.rows), MarkFailed(job.data.jobId, message, now))
                          else old(store.rows)
  {
    var err := store.Update(MarkFailed(job.data.jobId, message, now), fault);
  }

  /** The write the listener makes once an attempt has ended, if any: the
      `completed` event always follows a returned result; whether the
      `failed` event follows a thrown error is the queue library's choice. */
  function EndWrite(job: QueueJob, o: Outcome, at: Timestamp, failedEventFires: bool): (w: Option<Write>)
    ensures o.Done? ==> w == Some(MarkCompleted(job.data.jobId, o.result, at))
    ensures o.Thrown? && failedEventFires ==> w == Some(MarkFailed(job.data.jobId, o.message, at))
    ensures o.Thrown? && !failedEventFires ==> w == None
  {
    if o.Done? then Some(MarkCompleted(job.data.jobId, o.result, at))
    else if failedEventFires then Some(MarkFailed(job.data.jobId, o.message, at))
    else None
  }

  /** The writes of one attempt that reach the table, in order. */
  function AttemptWrites(job: QueueJob, o: Outcome, startAt: Timestamp, endAt: Timestamp,
                         startLands: bool, endLands: bool, failedEventFires: bool): (ws: seq<Write>)
    ensures |ws| <= 2
  {
    var end := EndWrite(job, o, endAt, failedEventFires);
    (if startLands then [StartWrite(job, startAt)] else [])
    + (if endLands && end.Some? then [end.value] else [])
  }

  /** One attempt end to end: the worker runs `processJob`, and the listener
      for the event that follows records the end. */
  method RunAttempt(store: JobStore, job: QueueJob, fx: Effects, startAt: Timestamp, endAt: Timestamp,
                    startFault: Option<DbError>, endFault: Option<DbError>, failedEventFires: bool)
    returns (o: Outcome)
    requires store.Valid()
    modifies store
    ensures store.Valid()
    ensures o == Dispatch(job.data, fx)
    ensures store.rows == ApplyAll(old(store.rows),
              AttemptWrites(job, o, startAt, endAt, startFault.None?, endFault.None?, failedEventFires))
  {
    ghost var before := store.rows;
    o := ProcessJob(store, job, startAt, startFault, fx);
    ghost var mid := store.rows;
    if o.Done? {
      HandleCompleted(store, job, o.result, endAt, endFault);
    } else if failedEventFires {
      HandleFailed(store, job, o.message, endAt, endFault);
    }
    ghost var first: seq<Write> := if startFault.None? then [StartWrite(job, startAt)] else [];
    ghost var end := EndWrite(job, o, endAt, failedEventFires);
    ghost var second: seq<Write> := if endFault.None? && end.Some? then [end.value] else [];
    assert mid == ApplyAll(before, first) by {
      if startFault.None? {
        assert ApplyAll(before, first) == ApplyAll(Apply(before, first[0]), []);
      }
    }
    assert store.rows == ApplyAll(mid, second) by {
      if endFault.None? && end.Some? {
        assert ApplyAll(mid, second) == ApplyAll(Apply(mid, second[0]), []);
      }
    }
    ApplyAllAppend(before, first, second);
  }

  /** An attempt whose handler returns, with both writes landing on an
      existing row: the row ends `completed` with the handler's result and
      this attempt's number, and its error column is untouched. */
  lemma SuccessfulAttemptCompletes(rows: map<JobId, JobRecord>, job: QueueJob, o: Outcome,
                                   startAt: Timestamp, endAt: Timestamp, failedEventFires: bool)
    requires job.data.jobId in rows
    requires o.Done?
    ensures var r := ApplyAll(rows, AttemptWrites(job, o, startAt, endAt, true, true, failedEventFires))[job.data.jobId];
            && r.status == Completed
            && r.result == Some(o.result)
            && r.attempts == job.attemptsMade + 1
            && r.error == rows[job.data.jobId].error
  {
    var id := job.data.jobId;
    var s := StartWrite(job, startAt);
    var e := MarkCompleted(id, o.result, endAt);
    assert AttemptWrites(job, o, startAt, endAt, true, true, failedEventFires) == [s, e];
    assert [s, e] == [s] + [e] + [];
    assert [s] == [] + [s] + [];
    LastWriteWins(rows, [], s, []);
    LastWriteWins(rows, [s], e, []);
  }

  /** An attempt at a job of an unknown type, with both writes landing and
      the `failed` event firing: the row ends `failed` with the message
      naming the type, this attempt's number, and its result untouched. */
  lemma UnknownTypeAttemptFails(rows: map<JobId, JobRecord>, job: QueueJob, fx: Effects,
                                startAt: Timestamp, endAt: Timestamp)
    requires job.data.jobId in rows
    requires !KnownType(job.data.jobType)
    ensures var o := Dispatch(job.data, fx);
            var r := ApplyAll(rows, AttemptWrites(job, o, startAt, endAt, true, true, true))[job.data.jobId];
            && r.status == Failed
            && r.error == Some(UnknownTypePrefix + JsString(job.data.jobType))
            && r.attempts == job.attemptsMade + 1
            && r.result == rows[job.data.jobId].result
  {
    var o := Dispatch(job.data, fx);
    var id := job.data.jobId;
    var s := StartWrite(job, startAt);
    var e := MarkFailed(id, o.message, endAt);
    assert AttemptWrites(job, o, startAt, endAt, true, true, true) == [s, e];
    assert [s, e] == [s] + [e] + [];
    assert [s] == [] + [s] + [];
    LastWriteWins(rows, [], s, []);
    LastWriteWins(rows, [s], e, []);
  }

  /** The CSV export of one record `{a: 1, b: 2}` succeeds with columns
      `a` and `b`, and names `<jobId>.csv` in the output directory. */
  lemma CsvExportExample(jobId: JobId, fx: Effects)
    requires fx.csvWrite.None?
    ensures var record := JObj([("a", JNum(1)), ("b", JNum(2))]);
            var payload := JObj([("data", JArr([record]))]);
            && CsvRequestFor(jobId, payload).Success?
            && CsvRequestFor(jobId, payload).value.fields == ["a", "b"]
            && Dispatch(JobData(jobId, JStr(CsvExportType), payload), fx)
               == Done(JObj([("filePath", JStr(OutputDir + "/" + jobId + ".csv"))]))
  {
  }
}
