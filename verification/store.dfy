/**
 * The job record store: the `jobs` table as one object whose rows the API
 * and the workers change in place. A database failure is a parameter of
 * each operation: when it is present the statement has no effect and the
 * error is returned to the caller.
 */
module Store {
  import opened Wrappers
  import opened Json
  import opened Records

  /** A database error with its SQLSTATE code. */
  datatype DbError = DbError(code: string, message: string)

  /** SQLSTATE for an invalid value of the id column's type (a malformed UUID). */
  const InvalidTextRepresentation := "22P02"

  /** SQLSTATE for a duplicate primary key. */
  const UniqueViolation := "23505"

  /** What a SELECT returns: its rows, or the error it raised. */
  datatype QueryResult = Rows(rows: seq<JobRecord>) | QueryFailed(err: DbError)

  class JobStore {
    var rows: map<JobId, JobRecord>

    ghost predicate Valid()
      reads this
    {
      WellKeyed(rows)
    }

    constructor ()
      ensures Valid() && rows == map[]
    {
      rows := map[];
    }

    /** `INSERT INTO jobs (type, priority, payload, status) VALUES (..., 'pending')
        RETURNING id`, where `id` is the key the database generates. */
    method Insert(id: JobId, jobType: Json, priority: Json, payload: Json, now: Timestamp, fault: Option<DbError>)
      returns (r: Result<JobId, DbError>)
      requires Valid()
      modifies this
      ensures Valid()
      ensures fault.Some? ==> r == Failure(fault.value) && rows == old(rows)
      ensures fault.None? && id in old(rows) ==> r.Failure? && r.error.code == UniqueViolation && rows == old(rows)
      ensures fault.None? && id !in old(rows) ==>
                r == Success(id) && rows == old(rows)[id := NewRecord(id, jobType, priority, payload, now)]
    {
      if fault.Some? {
        return Failure(fault.value);
      }
      if id in rows {
        return Failure(DbError(UniqueViolation, "duplicate key value violates unique constraint"));
      }
      rows := rows[id := NewRecord(id, jobType, priority, payload, now)];
      r := Success(id);
    }

    /** One of the worker's UPDATE ... WHERE id = $1 statements. */
    method Update(w: Write, fault: Option<DbError>) returns (err: Option<DbError>)
      requires Valid()
      modifies this
      ensures Valid()
      ensures err == fault
      ensures rows == if fault.None? then Apply(old(rows), w) else old(rows)
    {
      err := fault;
      if fault.None? {
        rows := Apply(rows, w);
      }
    }

    /** `SELECT * FROM jobs WHERE id = $1`: the one row stored under `id`, or
        none. */
    method Select(id: JobId, fault: Option<DbError>) returns (q: QueryResult)
      requires Valid()
      ensures fault.Some? ==> q == QueryFailed(fault.value)
      ensures fault.None? ==> q.Rows? && |q.rows| <= 1 && (|q.rows| == 1 <==> id in rows)
      ensures fault.None? && id in rows ==> q.rows[0] == rows[id] && q.rows[0].id == id
    {
      if fault.Some? {
        q := QueryFailed(fault.value);
      } else if id in rows {
        q := Rows([rows[id]]);
      } else {
        q := Rows([]);
      }
    }
  }
}
