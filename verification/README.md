# Job record lifecycle of an asynchronous job processor

The service accepts typed jobs over HTTP (`POST /jobs`), stores each one as
a row of a `jobs` table with status `pending`, and enqueues it on one of two
queue lanes (`high_priority` or `default`) chosen by its priority. Workers
take jobs from the lanes. For each attempt a worker marks the row
`processing` and writes the attempt number. It then runs the handler for the
job's type (`CSV_EXPORT` or `EMAIL_SEND`). Two event listeners then mark the
row `completed` with the handler's result, or `failed` with the error
message. Producers poll `GET /jobs/:id`, which returns a fixed projection of
the row.

This project models that lifecycle in Dafny:

- `wrappers.dfy` (module `Wrappers`): `Option` and `Result`.
- `json.dfy` (module `Json`): JSON values and the JavaScript operations the
  service applies to them. These are truthiness, property access,
  `Object.keys` and `String(v)`.
- `records.dfy` (module `Records`): the job row, the INSERT's new row and the
  three UPDATEs as pure functions over the table (a map from id to row). It
  also defines traces of writes and the lemmas about them: which row a write
  changes, last write wins, where the attempt count comes from, and
  redelivery.
- `store.dfy` (module `Store`): class `JobStore`, the table as an object
  whose `rows` map the INSERT and the UPDATEs change in place. Each
  database failure is a parameter.
- `worker.dfy` (module `Worker`): `processJob` (attempt number, start
  write, dispatch on type), the CSV and email handlers up to their library
  calls, the `completed`/`failed` listeners, and one attempt end to end.
- `api.dfy` (module `Api`): validation, the priority default, lane routing,
  enqueue options, class `Broker` (the two lanes as sequences), `POST /jobs`
  as a method over the store and the lanes, and the `GET /jobs/:id` answer.

Parameters stand for what the code gets from outside: the id and the clock
value (`NOW()`) from the database, each failure of the database or the
queue, what the CSV encoder, the file system and the mail transport report,
the `MAIL_FROM` setting, and whether the queue library fires its `failed`
event after a thrown error.

Some behaviour one might expect of a job lifecycle is not what the code
does, and the model follows the code:

- A terminal status (`completed`, `failed`) is meant to be final, with
  exactly one of `result` and `error` set. No write checks the current
  status, so neither holds as enforced behaviour. `Records.NoTerminalGuard`
  shows a terminal row going back to `processing`.
  `Records.RetriedJobKeepsStaleError` shows the reachable case where the
  `failed` event also fires for a failure that is retried: start, failure,
  start, completion leaves the row `completed` with the new result and the
  first attempt's error still set.
- An unknown type is meant to fail at once and for good. The code only
  throws (`src/worker.js:83-85`), so the queue library retries it like any
  other failure.
- The attempt count is meant to be incremented per attempt. The code
  assigns the queue's `attemptsMade + 1`, so a redelivered start write does
  not count twice (`Records.RedeliveryIdempotent`).
- Priorities are meant to be `default` or `high`. The code accepts any
  value and routes everything except exactly `"high"` to the default lane.
  Only an absent priority is defaulted; an explicit `null` is stored as is.

## Model

| member | source | states |
|---|---|---|
| `Worker.AttemptNumber` | src/worker.js:21 | the attempt number is `attemptsMade + 1`, so it is at least 1 and above the attempts already made |
| `Worker.StartWrite` | src/worker.js:33-41 | the start write targets the job's id, sets `processing` and assigns `attemptsMade + 1` |
| `Records.NewRecord` | src/index.js:22-25 | a submitted row starts `pending`, with 0 attempts and neither result nor error |
| `Records.Updated` | src/worker.js:35-141 | each UPDATE sets its status and `updated_at`; the start write assigns `attempts` and keeps `result`/`error`; completion sets `result` and keeps `attempts`/`error`; failure sets `error` and keeps `attempts`/`result`; id, type, priority, payload and `created_at` never change |
| `Records.Apply` | src/worker.js:35-41 | an UPDATE keyed `WHERE id = $1` changes only that row, adds or removes none, and changes nothing when the id is absent |
| `Records.ApplyAll` | src/worker.js:105-145 | a trace of writes keeps the set of ids and the rows' keying |
| `Records.UntouchedRowUnchanged` | src/worker.js:108-114 | a row that no write of a trace targets is exactly as before |
| `Records.LastWriteWins` | src/worker.js:134-141 | after a trace, a row is its last landed write applied to it, and its status is the status that write set |
| `Records.AttemptsKeptWithoutStart` | src/worker.js:108-114 | completion and failure writes never change a row's attempt count |
| `Records.AttemptsFromLastStart` | src/worker.js:35-41 | the attempt count a row shows is the number of the last start write that landed on it |
| `Records.AttemptsStayPositive` | src/worker.js:21-41 | once a row records an attempt, its attempt count stays at least 1 under any writes |
| `Records.RedeliveryIdempotent` | src/worker.js:35-41 | repeating a write with the same values (at any later time) is the same as writing it once at that time |
| `Records.RedeliveryAfterTrace` | src/worker.js:105-145 | delivering the last write of any trace twice gives the same table as delivering it once |
| `Records.RetriedJobKeepsStaleError` | src/worker.js:105-145 | start, failure, start, completion on one row leaves it `completed` with attempt 2, the new result, and the stale error beside it |
| `Records.NoTerminalGuard` | src/worker.js:134-141 | a terminal row is taken back to `processing` by a start write, and a completed row marked failed keeps its result beside the error |
| `Store.JobStore.Insert` | src/index.js:22-26 | the INSERT adds the new `pending` row under the generated id; a database error or a taken id changes nothing and is returned |
| `Store.JobStore.Update` | src/worker.js:42-49 | an UPDATE applies its write, or on a database error leaves the table unchanged and returns the error |
| `Store.JobStore.Select` | src/index.js:53 | the SELECT by id returns the one row stored under that id, or no row, or the database error |
| `Json.ObjectKeys` | src/worker.js:61 | `Object.keys` gives an object's keys in order, index names for arrays and strings, nothing for numbers and booleans, a TypeError for null |
| `Json.JsString` | src/worker.js:84 | the template literal shows a string type as itself and a non-negative number up to 2^53 as its decimal digits |
| `Worker.ReadProperty` | src/worker.js:59 | reading `payload.data` throws exactly for a null payload and otherwise gives the object's own entry or undefined |
| `Worker.CsvFields` | src/worker.js:59-61 | the CSV columns are the keys of the first record, none for an empty array, and a TypeError for an undefined or null `data` |
| `Worker.OutputFilePath` | src/worker.js:64-66 | the output file is the output directory, a slash, the job id and `.csv`, and the job id can be read back from it |
| `Worker.DistinctJobsDistinctFiles` | src/worker.js:64-66 | two different jobs never write the same file |
| `Worker.CsvRequestFor` | src/worker.js:53-66 | the CSV handler hands the library the columns derived from `payload.data`, the data itself and the job's file, unless reading them throws |
| `Worker.CsvOutcome` | src/worker.js:53-73 | the CSV handler returns `{filePath}` naming the job's file exactly when the columns can be derived and the write succeeds |
| `Worker.Sender` | src/worker.js:77 | an unset or empty `MAIL_FROM` gives `noreply@example.com`; any other value is used as the sender |
| `Worker.MailFor` | src/worker.js:75-81 | the mail carries `to`, `subject` and `body` from the payload; destructuring a null payload throws |
| `Worker.EmailOutcome` | src/worker.js:74-82 | the email handler returns `{messageId}` exactly when the transport succeeds (an empty object when the transport reports no id), and otherwise throws the transport's error |
| `Worker.Dispatch` | src/worker.js:53-87 | only `CSV_EXPORT` and `EMAIL_SEND` can produce a result; any other type throws `"Unknown job type: " + type` |
| `Worker.ProcessJob` | src/worker.js:19-88 | the start write lands or, on a database error, the table is unchanged; either way the outcome is the dispatch's |
| `Worker.HandleCompleted` | src/worker.js:105-119 | the completion write lands, or a database error leaves the table unchanged |
| `Worker.HandleFailed` | src/worker.js:121-145 | the failure write with the error's message lands, or a database error leaves the table unchanged |
| `Worker.EndWrite` | src/worker.js:147-150 | a returned result is followed by the completion write; a thrown error by the failure write only when the `failed` event fires |
| `Worker.RunAttempt` | src/worker.js:90-150 | one attempt leaves the table as the trace of its landed writes: the start write, then the completion or failure write |
| `Worker.SuccessfulAttemptCompletes` | src/worker.js:105-114 | a returning attempt whose writes land leaves the row `completed` with the result and this attempt's number, error untouched |
| `Worker.UnknownTypeAttemptFails` | src/worker.js:83-85 | an attempt at an unknown type whose writes land leaves the row `failed` with the message naming the type, this attempt's number, result untouched |
| `Worker.CsvExportExample` | src/worker.js:59-73 | exporting `[{a:1,b:2}]` uses the columns `a`, `b` and returns the job's `.csv` file |
| `Api.Validate` | src/index.js:15-19 | a submission is rejected exactly when `type` or `payload` is absent or falsy; otherwise it carries both, and its priority is `"default"` when absent and the given value otherwise |
| `Api.LaneFor` | src/index.js:28 | the high lane is chosen exactly for the priority `"high"`; every other value selects the default lane |
| `Api.EnqueueRequest` | src/index.js:32-39 | the job is enqueued with data `{jobId, type, payload}`, queue job id equal to the record id, 3 attempts and exponential backoff from 1000 ms |
| `Api.Broker.Add` | src/index.js:32 | `queue.add` appends to its lane only and leaves the other lane unchanged, or fails and changes nothing |
| `Api.SubmitJob` | src/index.js:14-46 | 400 changes nothing; a failed INSERT answers 500 and changes nothing; otherwise a `pending` row is inserted, and then either the job is appended to its lane with 201 and its id, or the enqueue fails with 500 and the row stays; every queued job keeps a record |
| `Api.WorkerWritesKeepQueueBacked` | src/index.js:22-39 | the worker's writes never remove a row, so every queued job keeps its record |
| `Api.ProjectionHidesOnlyPayload` | src/index.js:60-70 | the lookup shows every column except the payload: two rows look the same exactly when they differ only in payload |
| `Api.LookupResponse` | src/index.js:55-76 | 200 with the first row's projection; 404 for no row or SQLSTATE 22P02; 500 for any other database error |
| `Api.GetJob` | src/index.js:49-78 | a stored id answers 200 with its row as last written; an absent id 404; a malformed-id error 404; any other error 500 |

## Left out

- The queue library's own behaviour: retry decisions, the exponential delay
  computation, deduplication by job id, delayed visibility, `attemptsMade`
  bookkeeping, and per-lane `concurrency: 1` (`src/worker.js:94-97`).
  The enqueue options are kept as data. Whether `failed` fires on an
  intermediate failure is the `failedEventFires` parameter.
- `src/queue.js` only constructs the two queues and a Redis connection.
  The lanes are modelled as sequences in `Api.Broker`.
- CSV text generation, the file-system writes and the mail transport are
  foreign calls. Their outcome is the `Effects` parameter. The model keeps
  what the handlers hand them (`CsvRequest`, `Mail`).
- `Worker.CsvFields`: an object-valued `data` that carries its own `length`
  key is treated like any other object (no positive length).
- `Worker.OutputFilePath`: `path.join` normalisation is not modelled. It
  only matters for ids containing `/` or `..`, and database-generated ids
  contain neither.
- `Json.JsString`: numbers are integers. Fractional numbers and JavaScript's
  exponent notation are not modelled. Above 2^53 JavaScript prints the
  shortest digits that round-trip (`String(2**64)` is
  `"18446744073709552000"`), while the model prints the exact integer, so
  the number clause is stated only up to 2^53. An object with its own
  `toString` key makes the template literal throw a TypeError; the model
  shows every object as `"[object Object]"`.
- `Json.ObjectKeys`: objects keep their keys in stored order. JavaScript
  lists integer-like keys first. Dafny strings count Unicode scalar values,
  JavaScript strings count UTF-16 code units, so `Object.keys("😀")` is
  `["0","1"]` in JavaScript and `["0"]` in the model.
- `Json.Property`: an object value whose entries repeat a key stands for no
  JavaScript object (`JSON.parse` keeps one entry per key); for such a value
  the first entry is returned.
- `Store.JobStore.Select`: ids compare as exact strings. The `uuid` column
  also matches a stored id written in upper case, in braces or without
  hyphens; the model finds the row only under its stored spelling.
- `Api.GetJob`: for the same reason a lookup under another spelling of a
  stored uuid answers 404 in the model where the service answers 200, and
  the answered id equals the requested one only for the stored spelling.
- The database schema (`src/db.js` and the table definition) is not part of
  this model. The INSERT's defaults (0 attempts, NULL result and error, both
  timestamps `NOW()`) follow the system's data model. Conversions the `pg`
  driver applies to column types are not modelled.
- The database's own check of the id's format is not modelled. Its error
  code (SQLSTATE 22P02) arrives as a parameter of `GET /jobs/:id`.
- Express routing and body parsing, `/health`, Redis and pg connection
  setup, console logging and SIGTERM shutdown (`src/worker.js:156-162`,
  `src/index.js:80-92`) are I/O and process plumbing.
