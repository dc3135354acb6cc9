/** The rows of the imports table, and what each SQL statement does to the table. */
module ImportTypes {
  import opened Wrappers

  datatype Status = Pending | Running | Complete | Failed {
    predicate Terminal() {
      Complete? || Failed?
    }
  }

  datatype Row = Row(
    user: string,
    session: string,
    status: Status,
    total: nat,
    completed: nat,
    failed: nat,
    savedIds: seq<string>,
    error: Option<string>,
    metadata: map<string, string>,
    createdAt: nat)

  type Table = map<string, Row>

  function NewRow(user: string, session: string, metadata: Option<map<string, string>>, now: nat): Row {
    Row(user, session, Pending, 0, 0, 0, [], None, metadata.GetOr(map[]), now)
  }

  /** An `UPDATE ... WHERE id = $1`: no row, no effect, and no error. No statement looks at the status. */
  function Update(t: Table, id: string, change: Row -> Row): Table {
    if id in t then t[id := change(t[id])] else t
  }

  function MarkRunning(t: Table, id: string): Table {
    Update(t, id, (row: Row) => row.(status := Running))
  }

  function SetTotal(t: Table, id: string, total: nat): Table {
    Update(t, id, (row: Row) => row.(total := total))
  }

  function RecordItemSuccess(t: Table, id: string, savedId: string): Table {
    Update(t, id, (row: Row) => row.(completed := row.completed + 1, savedIds := row.savedIds + [savedId]))
  }

  function RecordItemFailure(t: Table, id: string): Table {
    Update(t, id, (row: Row) => row.(failed := row.failed + 1))
  }

  function MarkComplete(t: Table, id: string): Table {
    Update(t, id, (row: Row) => row.(status := Complete))
  }

  function MarkFailed(t: Table, id: string, message: string): Table {
    Update(t, id, (row: Row) => row.(status := Failed, error := Some(message)))
  }

  function Select(t: Table, user: string, id: string): Option<Row> {
    if id in t && t[id].user == user then Some(t[id]) else None
  }

  function Delete(t: Table, user: string, id: string): Table {
    if id in t && t[id].user == user then t - {id} else t
  }

  predicate Claimable(t: Table, locked: set<string>, id: string) {
    id in t && t[id].status.Pending? && id !in locked
  }

  /** A row that `ORDER BY created_at ... FOR UPDATE SKIP LOCKED LIMIT 1` may return. */
  predicate Oldest(t: Table, locked: set<string>, id: string) {
    Claimable(t, locked, id) && forall other <- t | Claimable(t, locked, other) :: t[id].createdAt <= t[other].createdAt
  }

  function PendingIds(t: Table): set<string> {
    set id | id in t && t[id].status.Pending?
  }
}

/** `PgImportStore`. `ok` says whether the database call succeeds; one that fails has had no effect. */
module ImportStore {
  import opened Wrappers
  import I = ImportTypes

  datatype StoreError = Unavailable | JobNotFound | DuplicateId

  datatype ImportJob = ImportJob(id: string, user: string, session: string, metadata: map<string, string>)

  class PgImportStore {
    var rows: map<string, I.Row>

    constructor ()
      ensures rows == map[]
    {
      rows := map[];
    }

    method CreateJob(id: string, user: string, session: string, metadata: Option<map<string, string>>, now: nat, ok: bool)
      returns (r: Result<string, StoreError>)
      modifies this
      ensures r == (if !ok then Err(Unavailable) else if id in old(rows) then Err(DuplicateId) else Ok(id))
      ensures r.Err? ==> rows == old(rows)
      ensures r.Ok? ==>
                && rows.Keys == old(rows).Keys + {id} && rows - {id} == old(rows) - {id}
                && var row := rows[id];
                  && row.user == user && row.session == session && row.createdAt == now
                  && row.metadata == (if metadata.Some? then metadata.value else map[])
                  && row.status.Pending? && row.total == row.completed == row.failed == 0
                  && row.savedIds == [] && row.error == None
      ensures r.Ok? ==> rows[id] == I.NewRow(user, session, metadata, now)
    {
      if !ok {
        return Err(Unavailable);
      }
      if id in rows {
        return Err(DuplicateId);
      }
      var meta := map[];
      if metadata.Some? {
        meta := metadata.value;
      }
      rows := rows[id := I.Row(user, session, I.Pending, 0, 0, 0, [], None, meta, now)];
      return Ok(id);
    }

    /** Claims the oldest pending row nobody else has locked; None means there is none. */
    method ClaimNextPending(locked: set<string>, ok: bool) returns (r: Result<Option<ImportJob>, StoreError>)
      modifies this
      ensures r.Err? <==> !ok
      ensures r.Err? || r.value.None? ==> rows == old(rows)
      ensures r.Ok? && r.value.None? ==> forall id <- rows :: !I.Claimable(rows, locked, id)
      ensures r.Ok? && r.value.Some? ==>
                var job := r.value.value;
                && I.Oldest(old(rows), locked, job.id)
                && rows == I.MarkRunning(old(rows), job.id)
                && job.user == rows[job.id].user && job.session == rows[job.id].session
                && job.metadata == rows[job.id].metadata
    {
      if !ok {
        return Err(Unavailable);
      }
      var best: Option<string> := None;
      var rest := rows.Keys;
      while rest != {}
        invariant rest <= rows.Keys
        invariant best.Some? ==> I.Claimable(rows, locked, best.value)
        invariant forall id <- rows | I.Claimable(rows, locked, id) ::
                    id in rest || (best.Some? && rows[best.value].createdAt <= rows[id].createdAt)
        decreases rest
      {
        var id :| id in rest;
        rest := rest - {id};
        if rows[id].status == I.Pending && id !in locked && (best.None? || rows[id].createdAt < rows[best.value].createdAt) {
          best := Some(id);
        }
      }
      if best.None? {
        return Ok(None);
      }
      var id := best.value;
      rows := rows[id := rows[id].(status := I.Running)];
      return Ok(Some(ImportJob(id, rows[id].user, rows[id].session, rows[id].metadata)));
    }

    method SetTotal(id: string, total: nat, ok: bool)
      modifies this
      ensures rows == if ok then I.SetTotal(old(rows), id, total) else old(rows)
    {
      if ok && id in rows {
        rows := rows[id := rows[id].(total := total)];
      }
    }

    method RecordItemSuccess(id: string, savedId: string, ok: bool)
      modifies this
      ensures rows == if ok then I.RecordItemSuccess(old(rows), id, savedId) else old(rows)
    {
      if ok && id in rows {
        var row := rows[id];
        rows := rows[id := row.(completed := row.completed + 1, savedIds := row.savedIds + [savedId])];
      }
    }

    method RecordItemFailure(id: string, ok: bool)
      modifies this
      ensures rows == if ok then I.RecordItemFailure(old(rows), id) else old(rows)
    {
      if ok && id in rows {
        rows := rows[id := rows[id].(failed := rows[id].failed + 1)];
      }
    }

    method MarkComplete(id: string, ok: bool)
      modifies this
      ensures rows == if ok then I.MarkComplete(old(rows), id) else old(rows)
    {
      if ok && id in rows {
        rows := rows[id := rows[id].(status := I.Complete)];
      }
    }

    method MarkFailed(id: string, message: string, ok: bool)
      modifies this
      ensures rows == if ok then I.MarkFailed(old(rows), id, message) else old(rows)
    {
      if ok && id in rows {
        rows := rows[id := rows[id].(status := I.Failed, error := Some(message))];
      }
    }

    /** Reads the job and, if it is terminal, deletes it; a failing delete goes unnoticed. */
    method Get(user: string, id: string, selectOk: bool, deleteOk: bool) returns (r: Result<I.Row, StoreError>)
      modifies this
      ensures r == (if !selectOk then Err(Unavailable)
                    else match I.Select(old(rows), user, id)
                         case None => Err(JobNotFound)
                         case Some(row) => Ok(row))
      ensures rows == if r.Ok? && r.value.status.Terminal() && deleteOk then I.Delete(old(rows), user, id) else old(rows)
      ensures r.Ok? && r.value.status.Terminal() && deleteOk ==> I.Select(rows, user, id) == None
    {
      if !selectOk {
        return Err(Unavailable);
      }
      if id !in rows || rows[id].user != user {
        return Err(JobNotFound);
      }
      var row := rows[id];
      if row.status == I.Complete || row.status == I.Failed {
        if deleteOk {
          rows := rows - {id};
        }
      }
      return Ok(row);
    }
  }
}
