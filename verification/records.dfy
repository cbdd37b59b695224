/**
 * The job record table and the writes the service makes to it.
 *
 * The table is a map from job id to row. Besides the INSERT at submission
 * there are three UPDATEs, each keyed `WHERE id = $1`: the start of an
 * attempt, completion and failure. Each is an assignment of fixed columns,
 * never an increment, and none of them looks at the row's current status.
 */
module Records {
  import opened Wrappers
  import opened Json

  type JobId = string

  /** A value of the database clock, `NOW()`. */
  type Timestamp = int

  /** An attempt number as the worker computes it: always at least 1. */
  type AttemptNo = n: int | n >= 1 witness 1

  datatype Status = Pending | Processing | Completed | Failed

  /** One row of the `jobs` table. `None` stands for SQL NULL. */
  datatype JobRecord = JobRecord(
    id: JobId,
    jobType: Json,
    priority: Json,
    payload: Json,
    status: Status,
    attempts: int,
    result: Option<Json>,
    error: Option<string>,
    createdAt: Timestamp,
    updatedAt: Timestamp)

  /** Every row is stored under its own id. */
  ghost predicate WellKeyed(rows: map<JobId, JobRecord>) {
    forall k | k in rows :: rows[k].id == k
  }

  /** The row the INSERT of a submission creates: status `pending`, the
      column defaults for everything the INSERT does not name. */
  function NewRecord(id: JobId, jobType: Json, priority: Json, payload: Json, now: Timestamp): (r: JobRecord)
    ensures r.id == id && r.jobType == jobType && r.priority == priority && r.payload == payload
    ensures r.status == Pending && r.attempts == 0 && r.result == None && r.error == None
    ensures r.createdAt == now && r.updatedAt == now
  {
    JobRecord(id, jobType, priority, payload, Pending, 0, None, None, now, now)
  }

  /** The three UPDATEs the worker issues, with their parameters. */
  datatype Write =
    | MarkProcessing(id: JobId, attempt: AttemptNo, at: Timestamp)
    | MarkCompleted(id: JobId, result: Json, at: Timestamp)
    | MarkFailed(id: JobId, message: string, at: Timestamp)

  /** The status a write assigns. */
  function StatusSetBy(w: Write): Status {
    match w
    case MarkProcessing(_, _, _) => Processing
    case MarkCompleted(_, _, _) => Completed
    case MarkFailed(_, _, _) => Failed
  }

  /** A row after one UPDATE: the SET columns take the write's values, and
      every other column keeps its value, whatever the row's status was. */
  function Updated(r: JobRecord, w: Write): (r': JobRecord)
    ensures r'.id == r.id && r'.jobType == r.jobType && r'.priority == r.priority
    ensures r'.payload == r.payload && r'.createdAt == r.createdAt
    ensures r'.status == StatusSetBy(w) && r'.updatedAt == w.at
    ensures w.MarkProcessing? ==> r'.attempts == w.attempt && r'.result == r.result && r'.error == r.error
    ensures w.MarkCompleted? ==> r'.result == Some(w.result) && r'.attempts == r.attempts && r'.error == r.error
    ensures w.MarkFailed? ==> r'.error == Some(w.message) && r'.attempts == r.attempts && r'.result == r.result
  {
    match w
    case MarkProcessing(_, n, t) => r.(status := Processing, attempts := n, updatedAt := t)
    case MarkCompleted(_, v, t) => r.(status := Completed, result := Some(v), updatedAt := t)
    case MarkFailed(_, m, t) => r.(status := Failed, error := Some(m), updatedAt := t)
  }

  /** The table after one UPDATE ... WHERE id = $1. Only the row with the
      write's id changes; no row appears or disappears; an absent id leaves
      the table as it was. */
  function Apply(rows: map<JobId, JobRecord>, w: Write): (rows': map<JobId, JobRecord>)
    ensures rows'.Keys == rows.Keys
    ensures forall k | k in rows && k != w.id :: rows'[k] == rows[k]
    ensures w.id in rows ==> rows'[w.id] == Updated(rows[w.id], w)
    ensures w.id !in rows ==> rows' == rows
    ensures WellKeyed(rows) ==> WellKeyed(rows')
  {
    if w.id in rows then rows[w.id := Updated(rows[w.id], w)] else rows
  }

  /** The table after a sequence of writes that landed, in order. Updates
      never insert or delete, so the set of ids is the one the INSERTs made. */
  function ApplyAll(rows: map<JobId, JobRecord>, ws: seq<Write>): (rows': map<JobId, JobRecord>)
    ensures rows'.Keys == rows.Keys
    ensures WellKeyed(rows) ==> WellKeyed(rows')
    decreases |ws|
  {
    if |ws| == 0 then rows else ApplyAll(Apply(rows, ws[0]), ws[1..])
  }

  /** Whether some write of `ws` targets row `k`. */
  predicate Touches(ws: seq<Write>, k: JobId) {
    exists i :: 0 <= i < |ws| && ws[i].id == k
  }

  /** Whether some write of `ws` is an attempt start for row `k`. */
  predicate StartsAttempt(ws: seq<Write>, k: JobId) {
    exists i :: 0 <= i < |ws| && ws[i].MarkProcessing? && ws[i].id == k
  }

  /** Running two traces one after the other is running their concatenation. */
  lemma {:induction false} ApplyAllAppend(rows: map<JobId, JobRecord>, a: seq<Write>, b: seq<Write>)
    ensures ApplyAll(rows, a + b) == ApplyAll(ApplyAll(rows, a), b)
    decreases |a|
  {
    if |a| > 0 {
      assert (a + b)[0] == a[0];
      assert (a + b)[1..] == a[1..] + b;
      ApplyAllAppend(Apply(rows, a[0]), a[1..], b);
    } else {
      assert a + b == b;
    }
  }

  /** A row that no write of the trace targets is left exactly as it was. */
  lemma {:induction false} UntouchedRowUnchanged(rows: map<JobId, JobRecord>, ws: seq<Write>, k: JobId)
    requires k in rows
    requires !Touches(ws, k)
    ensures k in ApplyAll(rows, ws) && ApplyAll(rows, ws)[k] == rows[k]
    decreases |ws|
  {
    if |ws| > 0 {
      assert ws[0].id != k;
      assert !Touches(ws[1..], k) by {
        forall i | 0 <= i < |ws[1..]| ensures ws[1..][i].id != k {
          assert ws[1..][i] == ws[i + 1];
        }
      }
      UntouchedRowUnchanged(Apply(rows, ws[0]), ws[1..], k);
    }
  }

  /** The row reflects the last write that landed on it: later writes to
      other rows do not disturb it. In particular its visible status is the
      status that last write set. */
  lemma LastWriteWins(rows: map<JobId, JobRecord>, before: seq<Write>, w: Write, after: seq<Write>)
    requires w.id in rows
    requires !Touches(after, w.id)
    ensures ApplyAll(rows, before + [w] + after)[w.id] == Updated(ApplyAll(rows, before)[w.id], w)
    ensures ApplyAll(rows, before + [w] + after)[w.id].status == StatusSetBy(w)
  {
    var mid := ApplyAll(rows, before);
    ApplyAllAppend(rows, before, [w]);
    ApplyAllAppend(rows, before + [w], after);
    assert ApplyAll(mid, [w]) == Apply(mid, w);
    UntouchedRowUnchanged(Apply(mid, w), after, w.id);
  }

  /** Completion and failure writes never touch `attempts`: after a trace
      without an attempt start for row `k`, its attempt count is unchanged. */
  lemma {:induction false} AttemptsKeptWithoutStart(rows: map<JobId, JobRecord>, ws: seq<Write>, k: JobId)
    requires k in rows
    requires !StartsAttempt(ws, k)
    ensures k in ApplyAll(rows, ws) && ApplyAll(rows, ws)[k].attempts == rows[k].attempts
    decreases |ws|
  {
    if |ws| > 0 {
      assert !(ws[0].MarkProcessing? && ws[0].id == k);
      assert !StartsAttempt(ws[1..], k) by {
        forall i | 0 <= i < |ws[1..]| ensures !(ws[1..][i].MarkProcessing? && ws[1..][i].id == k) {
          assert ws[1..][i] == ws[i + 1];
        }
      }
      AttemptsKeptWithoutStart(Apply(rows, ws[0]), ws[1..], k);
    }
  }

  /** The attempt count a poller sees is the number written by the last
      attempt start that landed; completions and failures after it keep it. */
  lemma AttemptsFromLastStart(rows: map<JobId, JobRecord>, before: seq<Write>, id: JobId, n: AttemptNo, t: Timestamp, after: seq<Write>)
    requires id in rows
    requires !StartsAttempt(after, id)
    ensures ApplyAll(rows, before + [MarkProcessing(id, n, t)] + after)[id].attempts == n
  {
    var w := MarkProcessing(id, n, t);
    ApplyAllAppend(rows, before, [w]);
    ApplyAllAppend(rows, before + [w], after);
    assert ApplyAll(ApplyAll(rows, before), [w]) == Apply(ApplyAll(rows, before), w);
    AttemptsKeptWithoutStart(Apply(ApplyAll(rows, before), w), after, id);
  }

  /** Once a row has recorded an attempt, its attempt count stays at least 1
      through any further writes, since every attempt start writes a number
      of at least 1 and no other write touches the column. */
  lemma {:induction false} AttemptsStayPositive(rows: map<JobId, JobRecord>, ws: seq<Write>, k: JobId)
    requires k in rows && rows[k].attempts >= 1
    ensures k in ApplyAll(rows, ws) && ApplyAll(rows, ws)[k].attempts >= 1
    decreases |ws|
  {
    if |ws| > 0 {
      AttemptsStayPositive(Apply(rows, ws[0]), ws[1..], k);
    }
  }

  /** Two writes that differ at most in their timestamp. */
  predicate SameWrite(w1: Write, w2: Write) {
    w1.(at := w2.at) == w2
  }

  /** Every write assigns and never increments, so a redelivered write
      (the same write again, possibly at a later time) leaves the table as
      one delivery at the later time would. For an attempt start, writing
      the same attempt number twice does not count the attempt twice. */
  lemma RedeliveryIdempotent(rows: map<JobId, JobRecord>, w1: Write, w2: Write)
    requires SameWrite(w1, w2)
    ensures Apply(Apply(rows, w1), w2) == Apply(rows, w2)
  {
  }

  /** The same, at the end of any trace: delivering the last write twice is
      the same as delivering it once. */
  lemma RedeliveryAfterTrace(rows: map<JobId, JobRecord>, ws: seq<Write>, w: Write)
    ensures ApplyAll(rows, ws + [w, w]) == ApplyAll(rows, ws + [w])
  {
    ApplyAllAppend(rows, ws, [w, w]);
    ApplyAllAppend(rows, ws, [w]);
    var mid := ApplyAll(rows, ws);
    assert ApplyAll(mid, [w, w]) == Apply(Apply(mid, w), w) by {
      assert [w, w][1..] == [w];
      assert ApplyAll(mid, [w, w]) == ApplyAll(Apply(mid, w), [w]);
      assert ApplyAll(Apply(mid, w), [w]) == ApplyAll(Apply(Apply(mid, w), w), []);
    }
    assert ApplyAll(mid, [w]) == Apply(mid, w) by {
      assert ApplyAll(mid, [w]) == ApplyAll(Apply(mid, w), []);
    }
    RedeliveryIdempotent(mid, w, w);
  }

  /** A retried job as a poller sees it when the `failed` event also fires
      for the failure that is retried: start, failure, start, completion.
      The row ends `completed` with the new result, the second attempt's
      number, and the first attempt's error still set beside it. */
  lemma RetriedJobKeepsStaleError(rows: map<JobId, JobRecord>, id: JobId, m: string, v: Json,
                                  t1: Timestamp, t2: Timestamp, t3: Timestamp, t4: Timestamp)
    requires id in rows
    ensures var r := ApplyAll(rows, [MarkProcessing(id, 1, t1), MarkFailed(id, m, t2),
                                     MarkProcessing(id, 2, t3), MarkCompleted(id, v, t4)])[id];
            && r.status == Completed
            && r.attempts == 2
            && r.result == Some(v)
            && r.error == Some(m)
  {
    var w1, w2, w3, w4 := MarkProcessing(id, 1, t1), MarkFailed(id, m, t2), MarkProcessing(id, 2, t3), MarkCompleted(id, v, t4);
    var r1 := Apply(rows, w1);
    var r2 := Apply(r1, w2);
    var r3 := Apply(r2, w3);
    assert [w1, w2, w3, w4][1..] == [w2, w3, w4];
    assert [w2, w3, w4][1..] == [w3, w4];
    assert [w3, w4][1..] == [w4];
    assert ApplyAll(rows, [w1, w2, w3, w4]) == ApplyAll(r1, [w2, w3, w4]);
    assert ApplyAll(r1, [w2, w3, w4]) == ApplyAll(r2, [w3, w4]);
    assert ApplyAll(r2, [w3, w4]) == ApplyAll(r3, [w4]);
    assert ApplyAll(r3, [w4]) == ApplyAll(Apply(r3, w4), []);
  }

  /** No write checks the current status: a row already in a terminal state
      is taken back to `processing` by an attempt start, and a completed row
      can be marked failed, ending up with both a result and an error. */
  lemma NoTerminalGuard(r: JobRecord, n: AttemptNo, t: Timestamp, v: Json, m: string)
    ensures Updated(r.(status := Completed), MarkProcessing(r.id, n, t)).status == Processing
    ensures Updated(r.(status := Failed), MarkProcessing(r.id, n, t)).status == Processing
    ensures var done := Updated(r, MarkCompleted(r.id, v, t));
            var both := Updated(done, MarkFailed(r.id, m, t));
            both.status == Failed && both.result == Some(v) && both.error == Some(m)
  {
  }
}
