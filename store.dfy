/** The `notifications` table and the pooled access to it that every service
    carries: the SQL of `saveNotificationToDB` and `updateNotificationStatus`
    as functions on a table value, the pg pool reduced to a count of borrowed
    clients, and the service's three pooled methods, which borrow a client,
    run one statement and return the client on every path. */
module Store {
  import opened Model

  /** The table: its rows by SERIAL id, and the next value of the id sequence. */
  datatype Table = Table(rows: map<int, Row>, nextId: int) {
    /** Ids start at 1, and every id in use was handed out before `nextId`. */
    ghost predicate Valid() {
      1 <= nextId && forall id :: id in rows ==> 1 <= id < nextId
    }
  }

  /** The row an INSERT writes for `n`; created_at and updated_at take their
      default, the statement's timestamp `at`. */
  function NewRow(n: Notification, status: string, at: int): Row {
    Row(TypeName(n.kind), n.recipient, n.message, status, at, at)
  }

  /** `INSERT ... RETURNING id`: the row takes the sequence's next value as its id. */
  function InsertRow(t: Table, row: Row): (r: (Table, int))
    requires t.Valid()
    ensures r.0.Valid()
    ensures r.1 == t.nextId && r.1 !in t.rows
    ensures r.0.rows.Keys == t.rows.Keys + {r.1} && r.0.rows[r.1] == row
    ensures forall id :: id in t.rows ==> r.0.rows[id] == t.rows[id]
  {
    (Table(t.rows[t.nextId := row], t.nextId + 1), t.nextId)
  }

  /** `UPDATE ... SET status = $1, updated_at = CURRENT_TIMESTAMP WHERE id = $2`.
      An undefined id is bound as SQL NULL, and `id = NULL` holds of no row. */
  function SetStatusWhere(t: Table, id: Option<int>, status: string, at: int): (r: Table)
    ensures r.nextId == t.nextId && r.rows.Keys == t.rows.Keys
    ensures forall k :: k in t.rows && id != Some(k) ==> r.rows[k] == t.rows[k]
    ensures forall k :: k in t.rows && id == Some(k) ==> r.rows[k] == t.rows[k].(status := status, updatedAt := at)
    ensures id.None? ==> r == t
  {
    match id
    case None => t
    case Some(k) =>
      if k in t.rows then Table(t.rows[k := t.rows[k].(status := status, updatedAt := at)], t.nextId) else t
  }

  const SaveFailed: string := "Error saving notification to DB:"
  const UpdateFailed: string := "Error updating notification status:"
  const InitFailed: string := "Error initializing database:"

  /** The error a pooled method throws: a failed `pool.connect()` leaves
      before the try block and is not logged; a failed query is logged with
      the method's context and rethrown. */
  function Rethrown(o: DbOutcome, context: string): Thrown
    requires !o.Completes?
  {
    Thrown(o.message, if o.QueryFails? then Some(context) else None)
  }

  /** `saveNotificationToDB(notification, status)` on table `t`. */
  function Save(t: Table, n: Notification, status: string, at: int, o: DbOutcome): (r: (Table, Result<int>))
    requires t.Valid()
    ensures r.0.Valid()
    ensures r.1.Ok? <==> o.Completes?
    ensures r.1.Ok? ==>
      && r.1.value == t.nextId && r.1.value !in t.rows
      && r.0.rows.Keys == t.rows.Keys + {r.1.value}
      && r.0.rows[r.1.value] == NewRow(n, status, at)
      && (forall id :: id in t.rows ==> r.0.rows[id] == t.rows[id])
    ensures r.1.Err? ==> r.0 == t && r.1.error.message == o.message
    ensures r.1.Err? ==> (r.1.error.loggedAs == Some(SaveFailed) <==> o.QueryFails?)
  {
    if o.Completes? then
      var (t', id) := InsertRow(t, NewRow(n, status, at));
      (t', Ok(id))
    else
      (t, Err(Rethrown(o, SaveFailed)))
  }

  /** `updateNotificationStatus(notificationId, status)` on table `t`. */
  function Update(t: Table, id: Option<int>, status: string, at: int, o: DbOutcome): (r: (Table, Result<()>))
    ensures r.1.Ok? <==> o.Completes?
    ensures r.0.nextId == t.nextId && r.0.rows.Keys == t.rows.Keys
    ensures forall k :: k in t.rows && id != Some(k) ==> r.0.rows[k] == t.rows[k]
    ensures o.Completes? ==> forall k :: k in t.rows && id == Some(k) ==>
      r.0.rows[k] == t.rows[k].(status := status, updatedAt := at)
    ensures r.1.Err? ==> r.0 == t && r.1.error.message == o.message
    ensures r.1.Err? ==> (r.1.error.loggedAs == Some(UpdateFailed) <==> o.QueryFails?)
  {
    if o.Completes? then (SetStatusWhere(t, id, status, at), Ok(()))
    else (t, Err(Rethrown(o, UpdateFailed)))
  }

  /** A pg connection pool, reduced to the number of clients it has handed out. */
  class Pool {
    var borrowed: nat

    constructor ()
      ensures borrowed == 0
    {
      borrowed := 0;
    }

    /** `pool.connect()`: hands out a client when the server can be reached, and throws otherwise. */
    method Connect(reachable: bool) returns (client: bool)
      modifies this
      ensures client == reachable
      ensures borrowed == old(borrowed) + (if reachable then 1 else 0)
    {
      client := reachable;
      if reachable {
        borrowed := borrowed + 1;
      }
    }

    /** `client.release()`. */
    method Release()
      requires borrowed > 0
      modifies this
      ensures borrowed == old(borrowed) - 1
    {
      borrowed := borrowed - 1;
    }
  }

  /** The PostgreSQL table that all three services reach through their own pools. */
  class Database {
    var rows: map<int, Row>
    var nextId: int

    function Snapshot(): Table
      reads this
    {
      Table(rows, nextId)
    }

    ghost predicate Valid()
      reads this
    {
      Snapshot().Valid()
    }

    constructor ()
      ensures Valid() && rows == map[] && nextId == 1
    {
      rows := map[];
      nextId := 1;
    }

    /** Runs the INSERT of `saveNotificationToDB`. */
    method Insert(row: Row) returns (id: int)
      requires Valid()
      modifies this
      ensures Valid()
      ensures (Snapshot(), id) == InsertRow(old(Snapshot()), row)
    {
      id := nextId;
      rows := rows[id := row];
      nextId := nextId + 1;
    }

    /** Runs the UPDATE of `updateNotificationStatus`. */
    method Update(id: Option<int>, status: string, at: int)
      requires Valid()
      modifies this
      ensures Valid()
      ensures Snapshot() == SetStatusWhere(old(Snapshot()), id, status, at)
    {
      if id.Some? && id.value in rows {
        rows := rows[id.value := rows[id.value].(status := status, updatedAt := at)];
      }
    }
  }

  /** The pg half of a notification service: its own pool onto the shared table. */
  class PgStore {
    const pool: Pool
    const db: Database

    constructor (db: Database)
      ensures this.db == db && fresh(pool) && pool.borrowed == 0
    {
      this.db := db;
      pool := new Pool();
    }

    /** `initializeDatabase()`: CREATE TABLE IF NOT EXISTS leaves the rows as they are. */
    method InitializeDatabase(o: DbOutcome) returns (r: Result<()>)
      modifies pool
      ensures pool.borrowed == old(pool.borrowed)
      ensures r.Ok? <==> o.Completes?
      ensures r.Err? ==> r.error == Rethrown(o, InitFailed)
    {
      var client := pool.Connect(!o.ConnectFails?);
      if !client {
        return Err(Rethrown(o, InitFailed));
      }
      if o.QueryFails? {
        r := Err(Rethrown(o, InitFailed));
      } else {
        r := Ok(());
      }
      pool.Release();
    }

    /** `saveNotificationToDB(notification, status)`. */
    method SaveNotificationToDB(n: Notification, status: string, at: int, o: DbOutcome) returns (r: Result<int>)
      requires db.Valid()
      modifies pool, db
      ensures db.Valid()
      ensures pool.borrowed == old(pool.borrowed)
      ensures (db.Snapshot(), r) == Save(old(db.Snapshot()), n, status, at, o)
    {
      var client := pool.Connect(!o.ConnectFails?);
      if !client {
        return Err(Rethrown(o, SaveFailed));
      }
      if o.QueryFails? {
        r := Err(Rethrown(o, SaveFailed));
      } else {
        var id := db.Insert(NewRow(n, status, at));
        r := Ok(id);
      }
      pool.Release();
    }

    /** `updateNotificationStatus(notificationId, status)`; None is an undefined id. */
    method UpdateNotificationStatus(id: Option<int>, status: string, at: int, o: DbOutcome) returns (r: Result<()>)
      requires db.Valid()
      modifies pool, db
      ensures db.Valid()
      ensures pool.borrowed == old(pool.borrowed)
      ensures (db.Snapshot(), r) == Update(old(db.Snapshot()), id, status, at, o)
    {
      var client := pool.Connect(!o.ConnectFails?);
      if !client {
        return Err(Rethrown(o, UpdateFailed));
      }
      if o.QueryFails? {
        r := Err(Rethrown(o, UpdateFailed));
      } else {
        db.Update(id, status, at);
        r := Ok(());
      }
      pool.Release();
    }
  }
}
