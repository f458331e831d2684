/**
 * The fenced writer leases of src/storage.ts: the tables `workspace_leases`, `workspace_fencing` and `events`
 * as one value, every transaction as a function on it, and the schema migrations as table transforms.
 */
module WriterLease {
  import opened Common

  /** Workspaces, lease ids and fencing tokens; only equality matters.  New ids and tokens come from `next`. */
  type Ws = nat
  type Id = nat
  type Token = nat

  datatype Proc = Proc(pid: nat, start: nat)

  /** Batch, session, server instance and host of the owner; the empty strings of old rows are `Nobody`. */
  datatype Owner = Nobody | Owner(batch: nat, session: Option<nat>, server: nat, host: nat)

  datatype LeaseState = Active | Releasing | Released | Quarantined

  /** `digest` is the fencing token whose digest the row holds; rows that never had one hold `None`. */
  datatype Row = Row(ws: Ws, writer: bool, owner: Owner, generation: nat, digest: Option<Token>, state: LeaseState,
                     expires: int, releasedAt: Option<int>, version: nat, proc: Option<Proc>)

  /** A row of the schema before fencing. */
  datatype OldRow = OldRow(ws: Ws, writer: bool, owner: Owner, expires: int, releasedAt: Option<int>)

  datatype Kind = Acquired | Heartbeat | Bound | OwnerReleased | Recovered | Froze | Repaired

  /** A lease event; `epoch` counts the rollbacks before it. */
  datatype Entry = Entry(lease: Id, ws: Ws, generation: nat, kind: Kind, epoch: nat)

  /**
   * At most one of `leases` (schema 3) and `legacy` (schema 2) is non-empty.  `issued` is the history of all
   * generations handed out, which no table keeps.
   */
  datatype Db = Db(schema: nat, leases: map<Id, Row>, legacy: map<Id, OldRow>, fencing: map<Ws, nat>,
                   log: seq<Entry>, next: nat, epoch: nat, issued: seq<(Ws, nat)>)

  const Empty := Db(3, map[], map[], map[], [], 0, 0, [])

  datatype Authority = Authority(lease: Id, ws: Ws, owner: Owner, generation: nat, token: Token, version: nat,
                                 proc: Option<Proc>)

  function LastGeneration(db: Db, ws: Ws): nat {
    if ws in db.fencing then db.fencing[ws] else 0
  }

  /** The `WHERE` clause shared by every operation of an owner. */
  predicate Owns(a: Authority, row: Row) {
    row.ws == a.ws && row.owner == a.owner && row.generation == a.generation && row.digest == Some(a.token)
    && row.version == a.version && row.proc == a.proc
  }

  /** The authority names the current live row. */
  predicate CanAct(db: Db, a: Authority) {
    a.lease in db.leases && Owns(a, db.leases[a.lease]) && db.leases[a.lease].state == Active
  }

  predicate Blocks(row: Row, ws: Ws) {
    row.ws == ws && row.writer && row.state != Released
  }

  predicate OldBlocks(row: OldRow, ws: Ws) {
    row.ws == ws && row.writer && row.releasedAt.None?
  }

  // ---------------------------------------------------------------- transactions

  /** Replaces one row and appends its event. */
  function Write(db: Db, id: Id, row: Row, kind: Kind): Db {
    db.(leases := db.leases[id := row], log := db.log + [Entry(id, row.ws, row.generation, kind, db.epoch)])
  }

  predicate Free(db: Db, ws: Ws) {
    forall id :: id in db.leases ==> !Blocks(db.leases[id], ws)
  }

  function NewRow(db: Db, ws: Ws, owner: Owner, expires: int, proc: Option<Proc>): Row {
    Row(ws, true, owner, LastGeneration(db, ws) + 1, Some(db.next), Active, expires, None, 1, proc)
  }

  function Acquire(db: Db, ws: Ws, owner: Owner, expires: int, proc: Option<Proc>): Db {
    if db.schema != 3 || !Free(db, ws) then db
    else
      var g := LastGeneration(db, ws) + 1;
      Write(db, db.next, NewRow(db, ws, owner, expires, proc), Acquired)
        .(fencing := db.fencing[ws := g], next := db.next + 1, issued := db.issued + [(ws, g)])
  }

  /** What the transaction returns to the new owner. */
  function Granted(db: Db, ws: Ws, owner: Owner, proc: Option<Proc>): Option<Authority> {
    if db.schema != 3 || !Free(db, ws) then None
    else Some(Authority(db.next, ws, owner, LastGeneration(db, ws) + 1, db.next, 1, proc))
  }

  function Bind(db: Db, a: Authority, proc: Proc): Db {
    if !CanAct(db, a) then db
    else Write(db, a.lease, db.leases[a.lease].(proc := Some(proc), version := a.version + 1), Bound)
  }

  function Beat(db: Db, a: Authority, now: int, expires: int): Db {
    if !CanAct(db, a) || db.leases[a.lease].expires <= now then db
    else Write(db, a.lease, db.leases[a.lease].(expires := expires, version := a.version + 1), Heartbeat)
  }

  /** Both phases of the release; the state between them is never committed. */
  function Release(db: Db, a: Authority, now: int): Db {
    if !CanAct(db, a) then db
    else
      Write(db, a.lease, db.leases[a.lease].(state := Released, releasedAt := Some(now), version := a.version + 2),
            OwnerReleased)
  }

  predicate Live(db: Db, a: Authority, now: int) {
    CanAct(db, a) && db.leases[a.lease].expires > now
  }

  /** The row still is what was observed, as far as the `WHERE` clause of a recovery asks. */
  predicate Unchanged(db: Db, id: Id, seen: Row) {
    && id in db.leases
    && db.leases[id].generation == seen.generation
    && db.leases[id].state == seen.state
    && db.leases[id].version == seen.version
  }

  function Recover(db: Db, id: Id, seen: Row, absent: bool, now: int): Db {
    if seen.state != Active || seen.expires > now || !absent
       || !Unchanged(db, id, seen) || db.leases[id].expires != seen.expires then db
    else
      Write(db, id, db.leases[id].(state := Released, releasedAt := Some(now), version := seen.version + 1), Recovered)
  }

  function Quarantine(db: Db, id: Id, seen: Row): Db {
    if (seen.state != Active && seen.state != Releasing) || !Unchanged(db, id, seen) then db
    else Write(db, id, db.leases[id].(state := Quarantined, version := seen.version + 1), Froze)
  }

  function Repair(db: Db, id: Id, seen: Row, absent: bool, now: int): Db {
    if !absent || !Unchanged(db, id, seen.(state := Quarantined)) then db
    else
      Write(db, id, db.leases[id].(state := Released, releasedAt := Some(now), version := seen.version + 1), Repaired)
  }

  predicate Expendable(row: Row, now: int, cutoff: int) {
    (row.state == Released && row.releasedAt.Some? && row.releasedAt.value < cutoff) || (!row.writer && row.expires < now)
  }

  function Cleanup(db: Db, now: int, cutoff: int): Db {
    db.(leases := map id | id in db.leases && !Expendable(db.leases[id], now, cutoff) :: db.leases[id])
  }

  /** The repository insert of a read-only lease; writer leases are refused there. */
  function InsertReader(db: Db, ws: Ws, expires: int, releasedAt: Option<int>): Db {
    if db.schema != 3 then db
    else
      var state := if releasedAt.None? then Active else Released;
      db.(leases := db.leases[db.next := Row(ws, false, Nobody, 1, None, state, expires, releasedAt, 1, None)],
          next := db.next + 1)
  }

  // ---------------------------------------------------------------- migrations

  function Strip(row: Row): OldRow {
    OldRow(row.ws, row.writer, row.owner, row.expires, row.releasedAt)
  }

  function Upgrade(o: OldRow): Row {
    Row(o.ws, o.writer, o.owner, 1, None, if o.releasedAt.None? then Quarantined else Released, o.expires, o.releasedAt, 1, None)
  }

  /** Rollback of migration `schema`; the fencing ledger always survives. */
  function Down(db: Db): Db {
    if db.schema == 3 then
      db.(schema := 2, leases := map[], legacy := map id | id in db.leases :: Strip(db.leases[id]), epoch := db.epoch + 1)
    else if db.schema == 2 then db.(schema := 1, legacy := map[])
    else if db.schema == 1 then db.(schema := 0, log := [])
    else db
  }

  /** The next migration. */
  function Up(db: Db): Db {
    if db.schema == 2 then
      db.(schema := 3, legacy := map[],
          leases := map id | id in db.legacy :: Upgrade(db.legacy[id]),
          fencing := map ws | ws in db.fencing.Keys + OldWorkspaces(db) :: if ws in db.fencing then db.fencing[ws] else 1)
    else if db.schema < 2 then db.(schema := db.schema + 1)
    else db
  }

  function OldWorkspaces(db: Db): set<Ws> {
    set id | id in db.legacy :: db.legacy[id].ws
  }

  /** A build from before fencing writes to the schema it knows, under its own unique index. */
  function OldAcquire(db: Db, ws: Ws, writer: bool, owner: Owner, expires: int): Db {
    if db.schema != 2 || (writer && exists id :: id in db.legacy && OldBlocks(db.legacy[id], ws)) then db
    else db.(legacy := db.legacy[db.next := OldRow(ws, writer, owner, expires, None)], next := db.next + 1)
  }

  function OldRelease(db: Db, id: Id, now: int): Db {
    if db.schema != 2 || id !in db.legacy then db
    else db.(legacy := db.legacy[id := db.legacy[id].(releasedAt := Some(now))])
  }

  // ---------------------------------------------------------------- runs

  datatype Op =
    | OpAcquire(ws: Ws, owner: Owner, expires: int, given: Option<Proc>)
    | OpBind(a: Authority, proc: Proc)
    | OpBeat(a: Authority, now: int, expires: int)
    | OpRelease(a: Authority, now: int)
    | OpRecover(id: Id, seen: Row, absent: bool, now: int)
    | OpQuarantine(id: Id, seen: Row)
    | OpRepair(id: Id, seen: Row, absent: bool, now: int)
    | OpCleanup(now: int, cutoff: int)
    | OpReader(ws: Ws, expires: int, releasedAt: Option<int>)
    | OpDown | OpUp
    | OpOldAcquire(ws: Ws, writer: bool, owner: Owner, expires: int)
    | OpOldRelease(id: Id, now: int)

  function Step(db: Db, op: Op): Db {
    match op
    case OpAcquire(ws, owner, expires, proc) => Acquire(db, ws, owner, expires, proc)
    case OpBind(a, proc) => Bind(db, a, proc)
    case OpBeat(a, now, expires) => Beat(db, a, now, expires)
    case OpRelease(a, now) => Release(db, a, now)
    case OpRecover(id, seen, absent, now) => Recover(db, id, seen, absent, now)
    case OpQuarantine(id, seen) => Quarantine(db, id, seen)
    case OpRepair(id, seen, absent, now) => Repair(db, id, seen, absent, now)
    case OpCleanup(now, cutoff) => Cleanup(db, now, cutoff)
    case OpReader(ws, expires, releasedAt) => InsertReader(db, ws, expires, releasedAt)
    case OpDown => Down(db)
    case OpUp => Up(db)
    case OpOldAcquire(ws, writer, owner, expires) => OldAcquire(db, ws, writer, owner, expires)
    case OpOldRelease(id, now) => OldRelease(db, id, now)
  }

  function Run(ops: seq<Op>): Db {
    if ops == [] then Empty else Step(Run(ops[..|ops| - 1]), ops[|ops| - 1])
  }

  // ---------------------------------------------------------------- replaying the event log

  /** What the events of one lease say about it; `Illegal` once one of them could not have happened. */
  datatype Life = Unborn | Illegal | Life(generation: nat, state: LeaseState, version: nat)

  /** The effect of one event on a lease that exists. */
  function Change(l: Life, kind: Kind): Life
    requires l.Life?
  {
    if kind == Repaired then
      if l.state == Quarantined then Life(l.generation, Released, l.version + 1) else Illegal
    else if l.state != Active || kind == Acquired then Illegal
    else if kind == OwnerReleased then Life(l.generation, Released, l.version + 2)
    else if kind == Recovered then Life(l.generation, Released, l.version + 1)
    else if kind == Froze then Life(l.generation, Quarantined, l.version + 1)
    else Life(l.generation, Active, l.version + 1)
  }

  function After(life: Life, e: Entry): Life {
    if life.Unborn? && e.kind == Acquired then Life(e.generation, Active, 1)
    else if !life.Life? || life.generation != e.generation then Illegal
    else Change(life, e.kind)
  }

  function Replay(log: seq<Entry>, id: Id): Life {
    if log == [] then Unborn
    else
      var before := Replay(log[..|log| - 1], id);
      var e := log[|log| - 1];
      if e.lease == id then After(before, e) else before
  }

  predicate Closes(e: Entry, id: Id) {
    e.lease == id && (e.kind == OwnerReleased || e.kind == Recovered || e.kind == Repaired)
  }

  function Closings(log: seq<Entry>, id: Id): nat {
    if log == [] then 0
    else Closings(log[..|log| - 1], id) + if Closes(log[|log| - 1], id) then 1 else 0
  }

  function LifeOf(row: Row): Life { Life(row.generation, row.state, row.version) }

  // ---------------------------------------------------------------- invariants

  predicate RowOk(row: Row) {
    row.state != Releasing && (row.state == Released <==> row.releasedAt.Some?)
  }

  /** A row that got its generation and token from an acquisition, and what the log and the ledger say of it. */
  ghost predicate NativeOk(row: Row, id: Id, log: seq<Entry>, last: nat, next: nat) {
    row.digest.Some? ==> row.writer && row.digest.value < next && row.generation <= last && Replay(log, id) == LifeOf(row)
  }

  ghost predicate Rows(db: Db) {
    && (forall id :: id in db.leases ==> id < db.next && RowOk(db.leases[id]))
    && (forall id :: id in db.leases ==>
          NativeOk(db.leases[id], id, db.log, LastGeneration(db, db.leases[id].ws), db.next))
    && (forall id :: id in db.legacy ==> id < db.next)
    && (db.schema != 3 ==> db.leases == map[])
    && (db.schema != 2 ==> db.legacy == map[])
  }

  /** The unique index: at most one writer of a workspace is not released, in either schema. */
  ghost predicate OneWriter(db: Db) {
    && (forall i, j | i in db.leases && j in db.leases ::
          Blocks(db.leases[i], db.leases[j].ws) && Blocks(db.leases[j], db.leases[j].ws) ==> i == j)
    && (forall i, j | i in db.legacy && j in db.legacy ::
          OldBlocks(db.legacy[i], db.legacy[j].ws) && OldBlocks(db.legacy[j], db.legacy[j].ws) ==> i == j)
  }

  ghost predicate Increasing(issued: seq<(Ws, nat)>, fencing: map<Ws, nat>) {
    && (forall i, j :: 0 <= i < j < |issued| && issued[i].0 == issued[j].0 ==> issued[i].1 < issued[j].1)
    && (forall i :: 0 <= i < |issued| ==> issued[i].0 in fencing && issued[i].1 <= fencing[issued[i].0])
  }

  /** The log of the leases acquired since the last rollback is legal and complete. */
  ghost predicate LogOk(db: Db) {
    && (forall i :: 0 <= i < |db.log| ==> db.log[i].lease < db.next && db.log[i].epoch <= db.epoch)
    && (db.schema != 3 ==> forall i :: 0 <= i < |db.log| ==> db.log[i].epoch < db.epoch)
    && (forall i :: 0 <= i < |db.log| && db.log[i].kind == Acquired && db.log[i].epoch == db.epoch ==>
          Accounted(db, db.log[i]))
  }

  ghost predicate Accounted(db: Db, e: Entry) {
    if e.lease in db.leases then db.leases[e.lease].digest.Some? && db.leases[e.lease].ws == e.ws
    else Replay(db.log, e.lease).Life? && Replay(db.log, e.lease).state == Released
  }

  ghost predicate Inv(db: Db) {
    Rows(db) && OneWriter(db) && Increasing(db.issued, db.fencing) && LogOk(db)
  }

  // ---------------------------------------------------------------- preservation

  lemma ReplayAppend(log: seq<Entry>, e: Entry, id: Id)
    ensures Replay(log + [e], id) == if e.lease == id then After(Replay(log, id), e) else Replay(log, id)
  {
    assert (log + [e])[..|log|] == log;
  }

  /** Nothing is known of a lease id that was never used. */
  lemma {:induction false} ReplayFresh(log: seq<Entry>, id: Id)
    requires forall i :: 0 <= i < |log| ==> log[i].lease != id
    ensures Replay(log, id) == Unborn
  {
    if log != [] { ReplayFresh(log[..|log| - 1], id); }
  }

  /** A row change that keeps the identity of the lease and that the log can replay. */
  ghost predicate LegalWrite(before: Row, row: Row, id: Id, kind: Kind, epoch: nat) {
    && row.ws == before.ws && row.writer == before.writer && row.digest == before.digest
    && row.generation == before.generation && RowOk(row)
    && kind != Acquired && (before.state == Released ==> row.state == Released)
    && After(LifeOf(before), Entry(id, row.ws, row.generation, kind, epoch)) == LifeOf(row)
  }

  lemma WriteRows(db: Db, id: Id, row: Row, kind: Kind)
    requires Rows(db) && id in db.leases && LegalWrite(db.leases[id], row, id, kind, db.epoch)
    ensures Rows(Write(db, id, row, kind))
  {
    var t := Write(db, id, row, kind);
    forall i | i in t.leases
      ensures NativeOk(t.leases[i], i, t.log, LastGeneration(t, t.leases[i].ws), t.next)
    {
      ReplayAppend(db.log, Entry(id, row.ws, row.generation, kind, db.epoch), i);
      assert NativeOk(db.leases[i], i, db.log, LastGeneration(db, db.leases[i].ws), db.next);
    }
  }

  lemma WriteLog(db: Db, id: Id, row: Row, kind: Kind)
    requires Rows(db) && LogOk(db) && id in db.leases && LegalWrite(db.leases[id], row, id, kind, db.epoch)
    ensures LogOk(Write(db, id, row, kind))
  {
    var t := Write(db, id, row, kind);
    forall i | 0 <= i < |t.log| && t.log[i].kind == Acquired && t.log[i].epoch == t.epoch
      ensures Accounted(t, t.log[i])
    {
      ReplayAppend(db.log, Entry(id, row.ws, row.generation, kind, db.epoch), t.log[i].lease);
      assert Accounted(db, db.log[i]);
    }
  }

  lemma WriteInv(db: Db, id: Id, row: Row, kind: Kind)
    requires Inv(db) && id in db.leases && LegalWrite(db.leases[id], row, id, kind, db.epoch)
    ensures Inv(Write(db, id, row, kind))
  {
    WriteRows(db, id, row, kind);
    WriteLog(db, id, row, kind);
    hide Rows, LogOk, Increasing;
  }

  lemma AcquireRows(db: Db, ws: Ws, owner: Owner, expires: int, proc: Option<Proc>)
    requires Rows(db) && LogOk(db) && db.schema == 3
    ensures Rows(Acquire(db, ws, owner, expires, proc))
  {
    var t := Acquire(db, ws, owner, expires, proc);
    forall i | i in t.leases
      ensures NativeOk(t.leases[i], i, t.log, LastGeneration(t, t.leases[i].ws), t.next)
    {
      if Free(db, ws) {
        ReplayAppend(db.log, t.log[|db.log|], i);
        if i == db.next { ReplayFresh(db.log, i); }
        else { assert NativeOk(db.leases[i], i, db.log, LastGeneration(db, db.leases[i].ws), db.next); }
      }
    }
  }

  lemma AcquireLog(db: Db, ws: Ws, owner: Owner, expires: int, proc: Option<Proc>)
    requires Rows(db) && LogOk(db)
    ensures LogOk(Acquire(db, ws, owner, expires, proc))
  {
    var t := Acquire(db, ws, owner, expires, proc);
    forall i | 0 <= i < |t.log| && t.log[i].kind == Acquired && t.log[i].epoch == t.epoch
      ensures Accounted(t, t.log[i])
    {
      if t != db && i < |db.log| {
        ReplayAppend(db.log, t.log[|db.log|], t.log[i].lease);
        assert Accounted(db, db.log[i]);
      }
    }
  }

  lemma AcquireInv(db: Db, ws: Ws, owner: Owner, expires: int, proc: Option<Proc>)
    requires Inv(db)
    ensures Inv(Acquire(db, ws, owner, expires, proc))
  {
    if db.schema == 3 {
      AcquireRows(db, ws, owner, expires, proc);
      AcquireLog(db, ws, owner, expires, proc);
      AcquireWriters(db, ws, owner, expires, proc);
      AcquireAllocates(db, ws, owner, expires, proc);
      hide Rows, OneWriter, LogOk, Increasing, Acquire;
    }
  }

  lemma AcquireWriters(db: Db, ws: Ws, owner: Owner, expires: int, proc: Option<Proc>)
    requires Rows(db) && OneWriter(db)
    ensures OneWriter(Acquire(db, ws, owner, expires, proc))
  {
  }

  lemma AcquireAllocates(db: Db, ws: Ws, owner: Owner, expires: int, proc: Option<Proc>)
    requires Increasing(db.issued, db.fencing)
    ensures Increasing(Acquire(db, ws, owner, expires, proc).issued, Acquire(db, ws, owner, expires, proc).fencing)
  {
  }

  lemma CleanupInv(db: Db, now: int, cutoff: int)
    requires Inv(db)
    ensures Inv(Cleanup(db, now, cutoff))
  {
    var t := Cleanup(db, now, cutoff);
    forall i | 0 <= i < |t.log| && t.log[i].kind == Acquired && t.log[i].epoch == t.epoch
      ensures Accounted(t, t.log[i])
    {
      var id := t.log[i].lease;
      assert Accounted(db, db.log[i]);
      if id in db.leases && id !in t.leases {
        assert NativeOk(db.leases[id], id, db.log, LastGeneration(db, db.leases[id].ws), db.next);
      }
    }
    assert LogOk(t);
    hide LogOk, Accounted;
  }

  lemma ReaderInv(db: Db, ws: Ws, expires: int, releasedAt: Option<int>)
    requires Inv(db)
    ensures Inv(InsertReader(db, ws, expires, releasedAt))
  {
    var t := InsertReader(db, ws, expires, releasedAt);
    forall i | 0 <= i < |t.log| && t.log[i].kind == Acquired && t.log[i].epoch == t.epoch
      ensures Accounted(t, t.log[i])
    {
      assert Accounted(db, db.log[i]);
    }
    assert LogOk(t);
    hide LogOk, Accounted;
  }

  lemma DownInv(db: Db)
    requires Inv(db)
    ensures Inv(Down(db))
  {
    var d := Down(db);
    DownRows(db);
    DownWriters(db);
    assert LogOk(d);
    hide Rows, OneWriter, LogOk, Down;
  }

  lemma DownRows(db: Db)
    requires Rows(db)
    ensures Rows(Down(db))
  {
  }

  lemma DownWriters(db: Db)
    requires Rows(db) && OneWriter(db)
    ensures OneWriter(Down(db))
  {
    var d := Down(db);
    if db.schema == 3 {
      forall i, j | i in d.legacy && j in d.legacy && OldBlocks(d.legacy[i], d.legacy[j].ws) && OldBlocks(d.legacy[j], d.legacy[j].ws)
        ensures i == j
      {
        assert RowOk(db.leases[i]) && RowOk(db.leases[j]);
        assert Blocks(db.leases[i], db.leases[j].ws) && Blocks(db.leases[j], db.leases[j].ws);
      }
    }
  }

  lemma UpInv(db: Db)
    requires Inv(db)
    ensures Inv(Up(db))
  {
    UpRows(db);
    UpWriters(db);
    UpFencing(db);
    assert LogOk(Up(db));
    hide Rows, OneWriter, LogOk, Increasing, Up;
  }

  lemma UpRows(db: Db)
    requires Rows(db)
    ensures Rows(Up(db))
  {
  }

  lemma UpWriters(db: Db)
    requires Rows(db) && OneWriter(db)
    ensures OneWriter(Up(db))
  {
    var u := Up(db);
    if db.schema == 2 {
      forall i, j | i in u.leases && j in u.leases && Blocks(u.leases[i], u.leases[j].ws) && Blocks(u.leases[j], u.leases[j].ws)
        ensures i == j
      {
        assert OldBlocks(db.legacy[i], db.legacy[j].ws) && OldBlocks(db.legacy[j], db.legacy[j].ws);
      }
    }
  }

  lemma UpFencing(db: Db)
    requires Increasing(db.issued, db.fencing)
    ensures Increasing(Up(db).issued, Up(db).fencing)
  {
  }

  lemma StepInv(db: Db, op: Op)
    requires Inv(db)
    ensures Inv(Step(db, op))
  {
    hide Inv;
    match op
    case OpAcquire(ws, owner, expires, proc) => AcquireInv(db, ws, owner, expires, proc);
    case OpCleanup(now, cutoff) => CleanupInv(db, now, cutoff);
    case OpReader(ws, expires, releasedAt) => ReaderInv(db, ws, expires, releasedAt);
    case OpDown => DownInv(db);
    case OpUp => UpInv(db);
    case OpOldAcquire(_, _, _, _) => OldInv(db, op);
    case OpOldRelease(_, _) => OldInv(db, op);
    case OpBind(_, _) => OwnerWritesInv(db, op);
    case OpBeat(_, _, _) => OwnerWritesInv(db, op);
    case OpRelease(_, _) => OwnerWritesInv(db, op);
    case _ => EvidenceWritesInv(db, op);
  }

  lemma RowsAreOk(db: Db, id: Id)
    requires Inv(db) && id in db.leases
    ensures RowOk(db.leases[id])
  {
  }

  /** Every transaction on an existing lease is a legal write. */
  lemma OwnerWrites(row: Row, id: Id, epoch: nat, proc: Proc, expires: int, now: int)
    requires RowOk(row) && row.state == Active
    ensures LegalWrite(row, row.(proc := Some(proc), version := row.version + 1), id, Bound, epoch)
    ensures LegalWrite(row, row.(expires := expires, version := row.version + 1), id, Heartbeat, epoch)
    ensures LegalWrite(row, row.(state := Released, releasedAt := Some(now), version := row.version + 2), id, OwnerReleased, epoch)
  {
  }

  lemma EvidenceWrites(row: Row, id: Id, epoch: nat, now: int)
    requires RowOk(row)
    ensures row.state == Active ==>
              && LegalWrite(row, row.(state := Released, releasedAt := Some(now), version := row.version + 1), id, Recovered, epoch)
              && LegalWrite(row, row.(state := Quarantined, version := row.version + 1), id, Froze, epoch)
    ensures row.state == Quarantined ==>
              LegalWrite(row, row.(state := Released, releasedAt := Some(now), version := row.version + 1), id, Repaired, epoch)
  {
  }

  lemma OwnerWritesInv(db: Db, op: Op)
    requires Inv(db) && (op.OpBind? || op.OpBeat? || op.OpRelease?)
    ensures Inv(Step(db, op))
  {
    hide Inv, LegalWrite, RowOk, Write;
    if CanAct(db, op.a) {
      var row := db.leases[op.a.lease];
      RowsAreOk(db, op.a.lease);
      match op
      case OpBind(a, proc) =>
        OwnerWrites(row, a.lease, db.epoch, proc, 0, 0);
        WriteInv(db, a.lease, row.(proc := Some(proc), version := a.version + 1), Bound);
      case OpBeat(a, now, expires) =>
        OwnerWrites(row, a.lease, db.epoch, Proc(0, 0), expires, 0);
        WriteInv(db, a.lease, row.(expires := expires, version := a.version + 1), Heartbeat);
      case OpRelease(a, now) =>
        OwnerWrites(row, a.lease, db.epoch, Proc(0, 0), 0, now);
        WriteInv(db, a.lease, row.(state := Released, releasedAt := Some(now), version := a.version + 2), OwnerReleased);
    }
  }

  lemma EvidenceWritesInv(db: Db, op: Op)
    requires Inv(db) && (op.OpRecover? || op.OpQuarantine? || op.OpRepair?)
    ensures Inv(Step(db, op))
  {
    hide Inv, LegalWrite, Write;
    if op.id in db.leases && Step(db, op) != db {
      var row, v := db.leases[op.id], op.seen.version + 1;
      RowsAreOk(db, op.id);
      EvidenceWrites(row, op.id, db.epoch, if op.OpQuarantine? then 0 else op.now);
      match op
      case OpRecover(id, seen, absent, now) =>
        WriteInv(db, id, row.(state := Released, releasedAt := Some(now), version := v), Recovered);
      case OpQuarantine(id, seen) => WriteInv(db, id, row.(state := Quarantined, version := v), Froze);
      case OpRepair(id, seen, absent, now) =>
        WriteInv(db, id, row.(state := Released, releasedAt := Some(now), version := v), Repaired);
    }
  }

  lemma OldInv(db: Db, op: Op)
    requires Inv(db) && (op.OpOldAcquire? || op.OpOldRelease?)
    ensures Inv(Step(db, op))
  {
  }

  lemma {:induction false} RunInv(ops: seq<Op>)
    ensures Inv(Run(ops))
  {
    if ops != [] {
      RunInv(ops[..|ops| - 1]);
      hide Inv, Step;
      StepInv(Run(ops[..|ops| - 1]), ops[|ops| - 1]);
    }
  }

  // ---------------------------------------------------------------- what holds over every history

  /** Generations of a workspace strictly increase in the order they are handed out, whatever happens between. */
  lemma GenerationsIncrease(ops: seq<Op>, i: nat, j: nat)
    requires i < j < |Run(ops).issued| && Run(ops).issued[i].0 == Run(ops).issued[j].0
    ensures Run(ops).issued[i].1 < Run(ops).issued[j].1
  {
    RunInv(ops);
  }

  /** Only one authority of a workspace can act: two that can are the same in every component. */
  lemma OneAuthority(ops: seq<Op>, a: Authority, b: Authority)
    requires CanAct(Run(ops), a) && CanAct(Run(ops), b) && a.ws == b.ws
    ensures a == b
  {
    RunInv(ops);
    var db := Run(ops);
    var x, y := db.leases[a.lease], db.leases[b.lease];
    assert NativeOk(x, a.lease, db.log, LastGeneration(db, x.ws), db.next);
    assert NativeOk(y, b.lease, db.log, LastGeneration(db, y.ws), db.next);
    assert Blocks(x, y.ws) && Blocks(y, y.ws);
  }

  /** This authority can never act again: its row is gone, closed, rewritten, or lost its token. */
  ghost predicate Dead(db: Db, a: Authority) {
    && a.lease < db.next
    && (a.lease in db.leases ==>
          var row := db.leases[a.lease];
          row.digest != Some(a.token) || row.version > a.version || row.state != Active)
  }

  lemma DeadStays(db: Db, op: Op, a: Authority)
    requires Inv(db) && Dead(db, a)
    ensures Dead(Step(db, op), a)
  {
  }

  lemma ActsOrDead(db: Db, op: Op, a: Authority)
    requires Inv(db) && CanAct(db, a)
    ensures CanAct(Step(db, op), a) || Dead(Step(db, op), a)
  {
  }

  /**
   * An authority that could act once and cannot any more is fenced for good, through cleanup, rollback and
   * migration.
   */
  lemma {:induction false} FencedForever(ops: seq<Op>, n: nat, m: nat, a: Authority)
    requires n <= m <= |ops|
    requires CanAct(Run(ops[..n]), a) && !CanAct(Run(ops[..m]), a)
    ensures Dead(Run(ops), a) && !CanAct(Run(ops), a)
  {
    var init := ops[..|ops| - 1];
    RunInv(init);
    if m == |ops| {
      assert ops[..m] == ops;
      ActsUntilDead(ops, n, a);
    } else {
      assert init[..n] == ops[..n] && init[..m] == ops[..m];
      FencedForever(init, n, m, a);
      DeadStays(Run(init), ops[|ops| - 1], a);
    }
  }

  lemma {:induction false} ActsUntilDead(ops: seq<Op>, n: nat, a: Authority)
    requires n <= |ops| && CanAct(Run(ops[..n]), a)
    ensures CanAct(Run(ops), a) || Dead(Run(ops), a)
  {
    if n == |ops| {
      assert ops[..n] == ops;
    } else {
      var init := ops[..|ops| - 1];
      assert init[..n] == ops[..n];
      ActsUntilDead(init, n, a);
      RunInv(init);
      hide Inv, CanAct, Dead, Step;
      if CanAct(Run(init), a) { ActsOrDead(Run(init), ops[|ops| - 1], a); }
      else { DeadStays(Run(init), ops[|ops| - 1], a); }
    }
  }

  /** An authority is good for one change: binding, renewing or releasing with it retires that copy. */
  lemma UseRetires(db: Db, op: Op, a: Authority)
    requires Inv(db) && CanAct(db, a)
    requires (op.OpBind? || op.OpBeat? || op.OpRelease?) && op.a == a && Step(db, op) != db
    ensures Dead(Step(db, op), a)
  {
  }

  /** So does every rollback of the fencing schema, to every authority there is. */
  lemma RollbackRetires(db: Db, a: Authority)
    requires Inv(db) && db.schema == 3 && a.lease < db.next
    ensures Dead(Down(db), a) && Dead(Up(Down(db)), a)
  {
  }

  /** The event log reconstructs every fenced lease, and nobody ever sees one half released. */
  lemma LogReconstructs(ops: seq<Op>, id: Id)
    requires id in Run(ops).leases
    ensures
      var row := Run(ops).leases[id];
      && row.state != Releasing
      && (row.digest.Some? ==> Replay(Run(ops).log, id) == Life(row.generation, row.state, row.version))
  {
    RunInv(ops);
    var db := Run(ops);
    assert NativeOk(db.leases[id], id, db.log, LastGeneration(db, db.leases[id].ws), db.next);
  }

  /** A legal life is closed once, at its end. */
  lemma {:induction false} ClosedOnce(log: seq<Entry>, id: Id)
    requires !Replay(log, id).Illegal?
    ensures Closings(log, id) == if Replay(log, id).Life? && Replay(log, id).state == Released then 1 else 0
  {
    if log != [] {
      ClosedOnce(log[..|log| - 1], id);
    }
  }

  // ---------------------------------------------------------------- how leases end

  predicate Open(db: Db, id: Id) {
    || (id in db.leases && db.leases[id].state != Released)
    || (id in db.legacy && db.legacy[id].releasedAt.None?)
  }

  /** The open leases that a step ends without an event: older builds release, and old tables are dropped. */
  function Loses(db: Db, op: Op): set<Id> {
    if op.OpOldRelease? && db.schema == 2 && Open(db, op.id) then {op.id}
    else if op.OpDown? && db.schema == 2 then set id | id in db.legacy && Open(db, id)
    else {}
  }

  function Lost(ops: seq<Op>): set<Id> {
    if ops == [] then {} else Lost(ops[..|ops| - 1]) + Loses(Run(ops[..|ops| - 1]), ops[|ops| - 1])
  }

  /** What became of an acquired lease: it is open, was closed by one event, or was lost without any. */
  ghost predicate Ended(db: Db, lost: set<Id>, e: Entry) {
    && Closings(db.log, e.lease) == (if Open(db, e.lease) || e.lease in lost then 0 else 1)
    && (e.lease in lost ==> !Open(db, e.lease) && e.epoch < db.epoch)
    && (e.lease in db.leases ==> db.leases[e.lease].writer && db.leases[e.lease].ws == e.ws)
    && (e.lease in db.legacy ==> db.legacy[e.lease].writer && db.legacy[e.lease].ws == e.ws)
  }

  ghost predicate AllEnded(db: Db, lost: set<Id>) {
    && (forall id :: id in lost ==> id < db.next)
    && (forall i :: 0 <= i < |db.log| && db.log[i].kind == Acquired ==> Ended(db, lost, db.log[i]))
  }

  lemma ClosingsAppend(log: seq<Entry>, e: Entry, id: Id)
    ensures Closings(log + [e], id) == Closings(log, id) + if Closes(e, id) then 1 else 0
  {
    assert (log + [e])[..|log|] == log;
  }

  lemma {:induction false} ClosingsFresh(log: seq<Entry>, id: Id)
    requires forall i :: 0 <= i < |log| ==> log[i].lease != id
    ensures Closings(log, id) == 0
  {
    if log != [] { ClosingsFresh(log[..|log| - 1], id); }
  }

  lemma WriteEnds(db: Db, lost: set<Id>, id: Id, row: Row, kind: Kind)
    requires Inv(db) && AllEnded(db, lost) && id in db.leases && db.leases[id].state != Released
    requires LegalWrite(db.leases[id], row, id, kind, db.epoch)
    ensures AllEnded(Write(db, id, row, kind), lost)
  {
    var t := Write(db, id, row, kind);
    forall i | 0 <= i < |t.log| && t.log[i].kind == Acquired ensures Ended(t, lost, t.log[i]) {
      ClosingsAppend(db.log, t.log[|db.log|], t.log[i].lease);
      assert Ended(db, lost, db.log[i]);
    }
  }

  lemma AcquireEnds(db: Db, lost: set<Id>, ws: Ws, owner: Owner, expires: int, proc: Option<Proc>)
    requires Inv(db) && AllEnded(db, lost)
    ensures AllEnded(Acquire(db, ws, owner, expires, proc), lost)
  {
    var t := Acquire(db, ws, owner, expires, proc);
    forall i | 0 <= i < |t.log| && t.log[i].kind == Acquired ensures Ended(t, lost, t.log[i]) {
      if t != db {
        ClosingsAppend(db.log, t.log[|db.log|], t.log[i].lease);
        if i < |db.log| { assert Ended(db, lost, db.log[i]); } else { ClosingsFresh(db.log, db.next); }
      }
    }
  }

  predicate Quiet(op: Op) {
    op.OpCleanup? || op.OpReader? || op.OpDown? || op.OpUp? || op.OpOldAcquire? || op.OpOldRelease?
  }

  /** Steps that append nothing: the rows of the acquired leases stay open, stay closed, or are lost now. */
  lemma QuietEnd(db: Db, lost: set<Id>, op: Op, e: Entry)
    requires Inv(db) && Ended(db, lost, e) && e.lease < db.next && (db.schema != 3 ==> e.epoch < db.epoch)
    requires Quiet(op) && Step(db, op).log == db.log && db.epoch <= Step(db, op).epoch
    ensures Ended(Step(db, op), lost + Loses(db, op), e)
  {
    hide OneWriter, LogOk, Increasing, NativeOk, Closings, Replay;
    assert e.lease in db.leases ==> RowOk(db.leases[e.lease]);
    match op
    case OpCleanup(_, _) => assert Ended(Step(db, op), lost, e);
    case OpReader(_, _, _) => assert Ended(Step(db, op), lost, e);
    case OpDown => if db.schema == 2 { assert Ended(Step(db, op), lost + Loses(db, op), e); }
    case OpUp => assert Ended(Step(db, op), lost, e);
    case OpOldAcquire(_, _, _, _) => assert Ended(Step(db, op), lost, e);
    case OpOldRelease(_, _) =>
  }

  lemma QuietLog(db: Db, op: Op)
    requires Quiet(op)
    ensures Step(db, op).log == db.log || Step(db, op).log == []
    ensures db.epoch <= Step(db, op).epoch && db.next <= Step(db, op).next
  {
  }

  lemma LosesKnown(db: Db, op: Op)
    requires Inv(db)
    ensures forall id :: id in Loses(db, op) ==> id < db.next
  {
  }

  lemma QuietEnds(db: Db, lost: set<Id>, op: Op)
    requires Inv(db) && AllEnded(db, lost) && Quiet(op)
    ensures AllEnded(Step(db, op), lost + Loses(db, op))
  {
    hide Rows, OneWriter, Increasing, Step, Loses, Ended;
    QuietLog(db, op);
    LosesKnown(db, op);
    var t := Step(db, op);
    forall i | 0 <= i < |t.log| && t.log[i].kind == Acquired ensures Ended(t, lost + Loses(db, op), t.log[i]) {
      QuietEnd(db, lost, op, db.log[i]);
    }
  }

  lemma OwnerEnds(db: Db, lost: set<Id>, op: Op)
    requires Inv(db) && AllEnded(db, lost) && (op.OpBind? || op.OpBeat? || op.OpRelease?)
    ensures AllEnded(Step(db, op), lost)
  {
    hide Inv, LegalWrite, RowOk, Write, AllEnded;
    if CanAct(db, op.a) {
      var row := db.leases[op.a.lease];
      RowsAreOk(db, op.a.lease);
      match op
      case OpBind(a, proc) =>
        OwnerWrites(row, a.lease, db.epoch, proc, 0, 0);
        WriteEnds(db, lost, a.lease, row.(proc := Some(proc), version := a.version + 1), Bound);
      case OpBeat(a, now, expires) =>
        OwnerWrites(row, a.lease, db.epoch, Proc(0, 0), expires, 0);
        WriteEnds(db, lost, a.lease, row.(expires := expires, version := a.version + 1), Heartbeat);
      case OpRelease(a, now) =>
        OwnerWrites(row, a.lease, db.epoch, Proc(0, 0), 0, now);
        WriteEnds(db, lost, a.lease, row.(state := Released, releasedAt := Some(now), version := a.version + 2), OwnerReleased);
    }
  }

  lemma EvidenceEnds(db: Db, lost: set<Id>, op: Op)
    requires Inv(db) && AllEnded(db, lost) && (op.OpRecover? || op.OpQuarantine? || op.OpRepair?)
    ensures AllEnded(Step(db, op), lost)
  {
    hide Inv, LegalWrite, Write, AllEnded;
    if op.id in db.leases && Step(db, op) != db {
      var row, v := db.leases[op.id], op.seen.version + 1;
      RowsAreOk(db, op.id);
      EvidenceWrites(row, op.id, db.epoch, if op.OpQuarantine? then 0 else op.now);
      match op
      case OpRecover(id, seen, absent, now) =>
        WriteEnds(db, lost, id, row.(state := Released, releasedAt := Some(now), version := v), Recovered);
      case OpQuarantine(id, seen) => WriteEnds(db, lost, id, row.(state := Quarantined, version := v), Froze);
      case OpRepair(id, seen, absent, now) =>
        WriteEnds(db, lost, id, row.(state := Released, releasedAt := Some(now), version := v), Repaired);
    }
  }

  lemma {:induction false} RunEnds(ops: seq<Op>)
    ensures AllEnded(Run(ops), Lost(ops))
  {
    if ops != [] {
      var init, op := ops[..|ops| - 1], ops[|ops| - 1];
      RunEnds(init);
      RunInv(init);
      hide Inv, AllEnded;
      match op
      case OpAcquire(ws, owner, expires, proc) => AcquireEnds(Run(init), Lost(init), ws, owner, expires, proc);
      case OpBind(_, _) => OwnerEnds(Run(init), Lost(init), op);
      case OpBeat(_, _, _) => OwnerEnds(Run(init), Lost(init), op);
      case OpRelease(_, _) => OwnerEnds(Run(init), Lost(init), op);
      case OpRecover(_, _, _, _) => EvidenceEnds(Run(init), Lost(init), op);
      case OpQuarantine(_, _) => EvidenceEnds(Run(init), Lost(init), op);
      case OpRepair(_, _, _, _) => EvidenceEnds(Run(init), Lost(init), op);
      case _ => QuietEnds(Run(init), Lost(init), op);
    }
  }

  /**
   * When a workspace can be acquired, every lease of it that the log knows, of any epoch, was closed by exactly
   * one event (a release by its owner, a recovery or a repair with evidence), unless an older build released
   * its row or the old table was dropped with it; then by none.
   */
  lemma ClosedOrLost(ops: seq<Op>, ws: Ws, owner: Owner, proc: Option<Proc>, i: nat)
    requires Granted(Run(ops), ws, owner, proc).Some?
    requires i < |Run(ops).log| && Run(ops).log[i].kind == Acquired && Run(ops).log[i].ws == ws
    ensures Closings(Run(ops).log, Run(ops).log[i].lease) == if Run(ops).log[i].lease in Lost(ops) then 0 else 1
    ensures Run(ops).log[i].epoch == Run(ops).epoch ==> Run(ops).log[i].lease !in Lost(ops)
  {
    RunInv(ops);
    RunEnds(ops);
    var db, e := Run(ops), Run(ops).log[i];
    assert Ended(db, Lost(ops), e);
    assert e.lease in db.leases ==> !Blocks(db.leases[e.lease], ws);
  }

  /** Every acquisition in the log happened at one step, on the log before it. */
  lemma {:induction false} AcquiredAt(ops: seq<Op>, j: nat) returns (n: nat)
    requires j < |Run(ops).log| && Run(ops).log[j].kind == Acquired
    decreases |ops|
    ensures n < |ops| && ops[n].OpAcquire? && Granted(Run(ops[..n]), ops[n].ws, ops[n].owner, ops[n].given).Some?
    ensures Run(ops).log[..j] == Run(ops[..n]).log
    ensures Run(ops).log[j].ws == ops[n].ws && Run(ops).log[j].epoch == Run(ops[..n]).epoch
  {
    var init, op := ops[..|ops| - 1], ops[|ops| - 1];
    var before := Run(init);
    hide Step, Granted;
    LogGrows(before, op);
    if j < |before.log| {
      n := AcquiredAt(init, j);
      assert ops[..n] == init[..n];
      assert before.log[j] == Run(ops).log[j] && before.log[..j] == Run(ops).log[..j];
    } else {
      n := |ops| - 1;
    }
  }

  lemma LogGrows(db: Db, op: Op)
    ensures (|db.log| <= |Step(db, op).log| && Step(db, op).log[..|db.log|] == db.log) || Step(db, op).log == []
    ensures |Step(db, op).log| <= |db.log| + 1
    ensures |db.log| < |Step(db, op).log| && Step(db, op).log[|db.log|].kind == Acquired ==>
              && op.OpAcquire? && Granted(db, op.ws, op.owner, op.given).Some?
              && Step(db, op).log[|db.log|].ws == op.ws && Step(db, op).log[|db.log|].epoch == db.epoch
  {
  }

  /**
   * Between two acquisitions of a workspace, with or without rollbacks between them, the earlier lease was
   * closed by exactly one event if and only if it was not lost, and within one epoch none is lost.
   */
  lemma ClosedBetweenAcquisitions(ops: seq<Op>, i: nat, j: nat) returns (n: nat)
    requires i < j < |Run(ops).log|
    requires
      var x, y := Run(ops).log[i], Run(ops).log[j];
      x.kind == Acquired && y.kind == Acquired && x.ws == y.ws
    ensures n < |ops| && Run(ops[..n]).log == Run(ops).log[..j]
    ensures Closings(Run(ops).log[..j], Run(ops).log[i].lease) == 1 <==> Run(ops).log[i].lease !in Lost(ops[..n])
    ensures Closings(Run(ops).log[..j], Run(ops).log[i].lease) == 0 <==> Run(ops).log[i].lease in Lost(ops[..n])
    ensures Run(ops).log[i].epoch == Run(ops).log[j].epoch ==> Run(ops).log[i].lease !in Lost(ops[..n])
  {
    n := AcquiredAt(ops, j);
    assert Run(ops).log[i] == Run(ops[..n]).log[i];
    ClosedOrLost(ops[..n], ops[n].ws, ops[n].owner, ops[n].given, i);
  }

  /** A history in which an older build releases the row, and one in which the old table is dropped. */
  function Losing(owner: Owner, released: bool): seq<Op> {
    if released then [OpAcquire(0, owner, 10, None), OpDown, OpOldRelease(0, 5), OpUp]
    else [OpAcquire(0, owner, 10, None), OpDown, OpDown, OpUp, OpUp]
  }

  lemma RunLast(ops: seq<Op>, op: Op)
    ensures Run(ops + [op]) == Step(Run(ops), op)
  {
    assert (ops + [op])[..|ops|] == ops;
  }

  const FirstGrant := [Entry(0, 0, 1, Acquired, 0)]

  lemma RolledBack(owner: Owner)
    ensures Run([OpAcquire(0, owner, 10, None), OpDown])
         == Db(2, map[], map[0 := OldRow(0, true, owner, 10, None)], map[0 := 1], FirstGrant, 1, 1, [(0, 1)])
  {
    var a := OpAcquire(0, owner, 10, None);
    RunLast([], a);
    assert [] + [a] == [a];
    assert Run([a]) == Db(3, map[0 := Row(0, true, owner, 1, Some(0), Active, 10, None, 1, None)], map[], map[0 := 1],
                          FirstGrant, 1, 0, [(0, 1)]);
    RunLast([a], OpDown);
    assert [a] + [OpDown] == [a, OpDown];
  }

  lemma ReleasedEnd(owner: Owner)
    ensures Run(Losing(owner, true)).log == FirstGrant && Granted(Run(Losing(owner, true)), 0, owner, None).Some?
  {
    var down := [OpAcquire(0, owner, 10, None), OpDown];
    RolledBack(owner);
    RunLast(down, OpOldRelease(0, 5));
    RunLast(down + [OpOldRelease(0, 5)], OpUp);
    assert Losing(owner, true) == down + [OpOldRelease(0, 5)] + [OpUp];
  }

  lemma DroppedEnd(owner: Owner)
    ensures Run(Losing(owner, false)).log == FirstGrant && Granted(Run(Losing(owner, false)), 0, owner, None).Some?
  {
    var down := [OpAcquire(0, owner, 10, None), OpDown];
    RolledBack(owner);
    RunLast(down, OpDown);
    RunLast(down + [OpDown], OpUp);
    RunLast(down + [OpDown] + [OpUp], OpUp);
    assert Losing(owner, false) == down + [OpDown] + [OpUp] + [OpUp];
  }

  /** Either way the workspace is acquired again and no event says how the first lease ended. */
  lemma LeasesCanBeLost(owner: Owner, released: bool)
    ensures
      var log := Run(Losing(owner, released) + [OpAcquire(0, owner, 20, None)]).log;
      |log| == 2 && log[0] == FirstGrant[0] && log[1].kind == Acquired && log[1].ws == 0 && Closings(log, log[0].lease) == 0
  {
    if released { ReleasedEnd(owner); } else { DroppedEnd(owner); }
    RunLast(Losing(owner, released), OpAcquire(0, owner, 20, None));
    var log := Run(Losing(owner, released) + [OpAcquire(0, owner, 20, None)]).log;
    assert log == FirstGrant + [log[1]];
    ClosingsAppend(FirstGrant, log[1], 0);
    ClosingsAppend([], FirstGrant[0], 0);
    assert [] + FirstGrant == FirstGrant;
  }

  // ---------------------------------------------------------------- what each transaction does

  /** All the rest of the tables is as it was. */
  ghost predicate OnlyLease(db: Db, t: Db, id: Id) {
    && (forall i :: i != id ==> (i in t.leases <==> i in db.leases))
    && (forall i :: i != id && i in db.leases ==> t.leases[i] == db.leases[i])
    && t.schema == db.schema && t.legacy == db.legacy && t.fencing == db.fencing && t.issued == db.issued && t.epoch == db.epoch
  }

  ghost predicate Logs(db: Db, t: Db, id: Id, kind: Kind) {
    && |t.log| == |db.log| + 1 && t.log[..|db.log|] == db.log && id in t.leases
    && t.log[|db.log|] == Entry(id, t.leases[id].ws, t.leases[id].generation, kind, db.epoch)
  }

  /** The row still is the same lease of the same owner, and its copies are out of date. */
  ghost predicate SameLease(row: Row, now: Row) {
    && now.ws == row.ws && now.writer == row.writer && now.owner == row.owner && now.generation == row.generation
    && now.digest == row.digest && now.version > row.version
  }

  /** The lease was open and now is released, and its workspace can be acquired again. */
  ghost predicate Retired(db: Db, t: Db, id: Id, kind: Kind, at: int) {
    && id in db.leases && db.leases[id].state != Released && OnlyLease(db, t, id) && Logs(db, t, id, kind)
    && SameLease(db.leases[id], t.leases[id])
    && t.leases[id].state == Released && t.leases[id].releasedAt == Some(at)
    && t.leases[id].proc == db.leases[id].proc && t.leases[id].expires == db.leases[id].expires
    && (db.leases[id].writer ==> forall i :: i in t.leases && t.leases[i].writer && t.leases[i].ws == db.leases[id].ws ==>
          t.leases[i].state == Released)
  }

  lemma RetiresRow(db: Db, id: Id, row: Row, kind: Kind, at: int)
    requires Inv(db) && id in db.leases && db.leases[id].state != Released
    requires row == db.leases[id].(state := Released, releasedAt := Some(at), version := row.version)
    requires row.version > db.leases[id].version
    ensures Retired(db, Write(db, id, row, kind), id, kind, at)
  {
    var t := Write(db, id, row, kind);
    forall i | i in t.leases && i != id && t.leases[i].writer
                && t.leases[i].ws == db.leases[id].ws && db.leases[id].writer
      ensures t.leases[i].state == Released
    {
      assert Blocks(db.leases[id], db.leases[id].ws);
      assert !Blocks(db.leases[i], db.leases[id].ws);
    }
    hide Rows, LogOk, Increasing;
  }

  /** The lease as an observer saw it, with this state. */
  predicate AsSeen(db: Db, id: Id, seen: Row, state: LeaseState) {
    && id in db.leases && db.leases[id].state == state
    && db.leases[id].generation == seen.generation && db.leases[id].version == seen.version
  }

  lemma RetiredDiffers(db: Db, t: Db, id: Id, kind: Kind, at: int)
    requires Retired(db, t, id, kind, at)
    ensures t != db && t.schema == db.schema
    ensures db.leases[id].writer ==> Free(t, db.leases[id].ws)
  {
  }

  /** A repair with proof of absence retires the quarantined lease that was seen; any other does nothing. */
  lemma RepairMeans(db: Db, id: Id, seen: Row, absent: bool, now: int)
    requires Inv(db)
    ensures
      var t := Step(db, OpRepair(id, seen, absent, now));
      if absent && AsSeen(db, id, seen, Quarantined) then Retired(db, t, id, Repaired, now) else t == db
  {
    if absent && AsSeen(db, id, seen, Quarantined) {
      hide Inv, Retired;
      RetiresRow(db, id, db.leases[id].(state := Released, releasedAt := Some(now), version := seen.version + 1), Repaired, now);
    }
  }

  /** The lease was seen active and expired, and has not been touched since. */
  predicate StillExpired(db: Db, id: Id, seen: Row, now: int) {
    seen.state == Active && seen.expires <= now && AsSeen(db, id, seen, Active) && db.leases[id].expires == seen.expires
  }

  /** So does a recovery, of an active lease that has expired and has not been renewed. */
  lemma RecoverMeans(db: Db, id: Id, seen: Row, absent: bool, now: int)
    requires Inv(db)
    ensures
      var t := Step(db, OpRecover(id, seen, absent, now));
      if absent && StillExpired(db, id, seen, now) then Retired(db, t, id, Recovered, now) else t == db
  {
    if absent && StillExpired(db, id, seen, now) {
      hide Inv, Retired;
      RetiresRow(db, id, db.leases[id].(state := Released, releasedAt := Some(now), version := seen.version + 1), Recovered, now);
    }
  }

  /** The owner's release retires its lease; an authority that cannot act releases nothing. */
  lemma ReleaseMeans(db: Db, a: Authority, now: int)
    requires Inv(db)
    ensures
      var t := Step(db, OpRelease(a, now));
      if CanAct(db, a) then Retired(db, t, a.lease, OwnerReleased, now) else t == db
  {
    if CanAct(db, a) {
      hide Inv, Retired;
      RetiresRow(db, a.lease, db.leases[a.lease].(state := Released, releasedAt := Some(now), version := a.version + 2), OwnerReleased, now);
    }
  }

  /** An acquisition is refused while a writer of the workspace is not released, and otherwise adds the next generation. */
  lemma AcquireMeans(db: Db, ws: Ws, owner: Owner, expires: int, proc: Option<Proc>)
    requires Inv(db)
    ensures
      var t := Step(db, OpAcquire(ws, owner, expires, proc));
      var blocked := exists i :: i in db.leases && db.leases[i].ws == ws && db.leases[i].writer && db.leases[i].state != Released;
      if db.schema != 3 || blocked then t == db
      else
        && db.next !in db.leases && Logs(db, t, db.next, Acquired) && t.schema == db.schema && t.legacy == db.legacy
        && (forall i :: i in db.leases ==> i in t.leases && t.leases[i] == db.leases[i])
        && (forall i :: i in t.leases ==> i in db.leases || i == db.next)
        && var row := t.leases[db.next];
           && row.ws == ws && row.writer && row.owner == owner && row.state == Active && row.expires == expires && row.proc == proc
           && row.releasedAt.None? && row.generation == LastGeneration(db, ws) + 1
           && LastGeneration(t, ws) == row.generation && forall other :: other != ws ==> LastGeneration(t, other) == LastGeneration(db, other)
  {
    assert Free(db, ws) <==> forall i :: i in db.leases ==> !Blocks(db.leases[i], ws);
    hide LogOk, Increasing, OneWriter;
  }

  /** Binding records the process, renewing moves the expiry of a lease that has not expired; nothing else changes. */
  lemma OwnerUpdatesMean(db: Db, a: Authority, proc: Proc, now: int, expires: int)
    requires Inv(db)
    ensures
      var t := Step(db, OpBind(a, proc));
      if CanAct(db, a) then
        && OnlyLease(db, t, a.lease) && Logs(db, t, a.lease, Bound) && SameLease(db.leases[a.lease], t.leases[a.lease])
        && t.leases[a.lease].proc == Some(proc) && t.leases[a.lease].state == Active
        && t.leases[a.lease].expires == db.leases[a.lease].expires
      else t == db
    ensures
      var t := Step(db, OpBeat(a, now, expires));
      if CanAct(db, a) && db.leases[a.lease].expires > now then
        && OnlyLease(db, t, a.lease) && Logs(db, t, a.lease, Heartbeat) && SameLease(db.leases[a.lease], t.leases[a.lease])
        && t.leases[a.lease].expires == expires && t.leases[a.lease].state == Active
        && t.leases[a.lease].proc == db.leases[a.lease].proc
      else t == db
  {
    hide Inv;
  }

  /** Quarantine freezes the open lease that was seen, whose workspace stays blocked. */
  lemma QuarantineMeans(db: Db, id: Id, seen: Row)
    requires Inv(db)
    ensures
      var t := Step(db, OpQuarantine(id, seen));
      if (seen.state == Active || seen.state == Releasing) && AsSeen(db, id, seen, seen.state) then
        && OnlyLease(db, t, id) && Logs(db, t, id, Froze) && SameLease(db.leases[id], t.leases[id])
        && t.leases[id].state == Quarantined && t.leases[id].releasedAt == db.leases[id].releasedAt
        && t.leases[id].proc == db.leases[id].proc && t.leases[id].expires == db.leases[id].expires
      else t == db
  {
    hide Inv;
  }

  /** Retention deletes the leases released before the cutoff and the reader leases that have expired, and no other row. */
  lemma CleanupMeans(db: Db, now: int, cutoff: int)
    requires Inv(db)
    ensures
      var t := Step(db, OpCleanup(now, cutoff));
      && t == db.(leases := t.leases)
      && (forall id :: id in t.leases ==> id in db.leases && t.leases[id] == db.leases[id])
      && (forall id :: id in db.leases ==>
            (id !in t.leases <==>
               || (db.leases[id].releasedAt.Some? && db.leases[id].releasedAt.value < cutoff)
               || (!db.leases[id].writer && db.leases[id].expires < now)))
  {
    forall id | id in db.leases ensures db.leases[id].state == Released <==> db.leases[id].releasedAt.Some? {
      assert RowOk(db.leases[id]);
    }
    hide OneWriter, LogOk, Increasing, NativeOk;
  }

  /** A rollback keeps of every lease what the older schema knows, and drops a table below that; generations stay. */
  lemma RollbackMeans(db: Db)
    requires Inv(db)
    ensures
      var d := Step(db, OpDown);
      && d.fencing == db.fencing && d.schema == (if db.schema == 0 then 0 else if db.schema <= 3 then db.schema - 1 else db.schema)
      && (db.schema == 3 ==>
            && d.leases == map[] && d.legacy.Keys == db.leases.Keys && d.log == db.log
            && forall id :: id in db.leases ==>
                 && d.legacy[id].ws == db.leases[id].ws && d.legacy[id].writer == db.leases[id].writer
                 && d.legacy[id].owner == db.leases[id].owner && d.legacy[id].expires == db.leases[id].expires
                 && (d.legacy[id].releasedAt.Some? <==> db.leases[id].state == Released))
      && (db.schema == 2 ==> d.legacy == map[] && d.log == db.log) && (db.schema == 1 ==> d.log == [])
  {
    forall id | id in db.leases ensures RowOk(db.leases[id]) { RowsAreOk(db, id); }
    hide OneWriter, LogOk, NativeOk, Increasing;
  }

  /** The migration back quarantines what was not released, without token or process, and counts on from one. */
  lemma MigrationMeans(db: Db)
    requires Inv(db)
    ensures
      var u := Step(db, OpUp);
      && u.log == db.log && (forall ws :: ws in db.fencing ==> ws in u.fencing && u.fencing[ws] == db.fencing[ws])
      && u.schema == (if db.schema < 3 then db.schema + 1 else db.schema)
      && (db.schema == 2 ==>
            && u.legacy == map[] && u.leases.Keys == db.legacy.Keys
            && forall id :: id in db.legacy ==>
                 && u.leases[id].ws == db.legacy[id].ws && u.leases[id].writer == db.legacy[id].writer
                 && u.leases[id].owner == db.legacy[id].owner && u.leases[id].digest.None? && u.leases[id].proc.None?
                 && u.leases[id].state == (if db.legacy[id].releasedAt.Some? then Released else Quarantined)
                 && db.legacy[id].ws in u.fencing && (db.legacy[id].ws !in db.fencing ==> u.fencing[db.legacy[id].ws] == 1))
  {
    hide Inv;
    assert db.schema == 2 ==> forall id :: id in db.legacy ==> db.legacy[id].ws in OldWorkspaces(db);
  }

  /** What older builds write while the table is rolled back. */
  lemma OlderBuildsMean(db: Db, ws: Ws, writer: bool, owner: Owner, expires: int, id: Id, now: int)
    requires Inv(db)
    ensures
      var t := Step(db, OpOldAcquire(ws, writer, owner, expires));
      var blocked := writer && exists i :: i in db.legacy && db.legacy[i].ws == ws && db.legacy[i].writer && db.legacy[i].releasedAt.None?;
      if db.schema != 2 || blocked then t == db
      else t == db.(legacy := t.legacy, next := t.next) && t.legacy == db.legacy[db.next := OldRow(ws, writer, owner, expires, None)]
    ensures
      var t := Step(db, OpOldRelease(id, now));
      if db.schema != 2 || id !in db.legacy then t == db
      else
        && t == db.(legacy := t.legacy) && t.legacy.Keys == db.legacy.Keys && t.legacy[id].releasedAt == Some(now)
        && t.legacy[id].ws == db.legacy[id].ws && t.legacy[id].writer == db.legacy[id].writer
        && forall i :: i in db.legacy && i != id ==> t.legacy[i] == db.legacy[i]
  {
    hide Inv;
    assert (exists i :: i in db.legacy && db.legacy[i].ws == ws && db.legacy[i].writer && db.legacy[i].releasedAt.None?)
           <==> exists i :: i in db.legacy && OldBlocks(db.legacy[i], ws);
  }

  /** A reader lease never blocks a workspace, and gets no token. */
  lemma ReaderMeans(db: Db, ws: Ws, expires: int, releasedAt: Option<int>)
    requires Inv(db)
    ensures
      var t := Step(db, OpReader(ws, expires, releasedAt));
      if db.schema != 3 then t == db
      else
        && t == db.(leases := t.leases, next := t.next) && db.next !in db.leases && t.leases.Keys == db.leases.Keys + {db.next}
        && (forall i :: i in db.leases ==> t.leases[i] == db.leases[i])
        && var row := t.leases[db.next];
           row.ws == ws && !row.writer && row.expires == expires && row.releasedAt == releasedAt && row.digest.None?
           && (row.state == Released <==> releasedAt.Some?) && row.proc.None?
  {
    hide OneWriter, LogOk, Increasing, NativeOk;
  }

  // ---------------------------------------------------------------- the storage object

  datatype Denial = InvalidTtl | WriterBusy(state: LeaseState) | Fenced | Ambiguous | Corrupt

  datatype Result<+T> = Ok(value: T) | Denied(why: Denial)

  class OrchestratorStorage {
    var schema: nat
    var leases: map<Id, Row>
    var legacy: map<Id, OldRow>
    var fencing: map<Ws, nat>
    var events: seq<Entry>
    /** The supply of fresh ids and tokens, and the history that the tables do not keep. */
    var next: nat
    var epoch: nat
    var issued: seq<(Ws, nat)>

    function View(): Db
      reads this
    {
      Db(schema, leases, legacy, fencing, events, next, epoch, issued)
    }

    ghost predicate Valid()
      reads this
    {
      Inv(View())
    }

    constructor ()
      ensures Valid() && View() == Empty
    {
      schema, leases, legacy, fencing, events := 3, map[], map[], map[], [];
      next, epoch, issued := 0, 0, [];
      new;
      RunInv([]);
    }

    method Append(id: Id, row: Row, kind: Kind)
      modifies this
      ensures View() == Write(old(View()), id, row, kind)
    {
      leases := leases[id := row];
      events := events + [Entry(id, row.ws, row.generation, kind, epoch)];
    }

    method AcquireWriterLease(ws: Ws, owner: Owner, ttl: int, now: int, proc: Option<Proc>) returns (r: Result<Authority>)
      requires Valid() && schema == 3
      modifies this
      ensures Valid()
      ensures View() == if ttl <= 0 then old(View()) else Acquire(old(View()), ws, owner, now + ttl, proc)
      ensures ttl <= 0 ==> r == Denied(InvalidTtl)
      ensures r.Ok? ==> CanAct(View(), r.value)
      ensures ttl > 0 && Free(old(View()), ws) ==> r.Ok? && Granted(old(View()), ws, owner, proc) == Some(r.value)
      ensures ttl > 0 && !Free(old(View()), ws) ==> r.Denied? && r.why.WriterBusy?
    {
      hide Inv;
      AcquireInv(View(), ws, owner, now + ttl, proc);
      GrantedCanAct(View(), ws, owner, now + ttl, proc);
      if ttl <= 0 { return Denied(InvalidTtl); }
      if id :| id in leases && Blocks(leases[id], ws) {
        return Denied(WriterBusy(leases[id].state));
      }
      var generation := (if ws in fencing then fencing[ws] else 0) + 1;
      fencing := fencing[ws := generation];
      var id := next;
      Append(id, Row(ws, true, owner, generation, Some(next), Active, now + ttl, None, 1, proc), Acquired);
      issued := issued + [(ws, generation)];
      r := Ok(Authority(id, ws, owner, generation, next, 1, proc));
      next := next + 1;
    }

    /** The row an owner's `UPDATE` would touch. */
    method FindOwned(a: Authority) returns (found: bool)
      ensures found <==> CanAct(View(), a)
    {
      found := a.lease in leases && Owns(a, leases[a.lease]) && leases[a.lease].state == Active;
    }

    method BindWriterProcess(a: Authority, proc: Proc) returns (r: Result<Authority>)
      requires Valid()
      modifies this
      ensures Valid() && View() == Bind(old(View()), a, proc)
      ensures r == if CanAct(old(View()), a) then Ok(a.(proc := Some(proc), version := a.version + 1)) else Denied(Fenced)
      ensures r.Ok? ==> CanAct(View(), r.value) && Dead(View(), a)
    {
      hide Inv;
      OwnerWritesInv(View(), OpBind(a, proc));
      if CanAct(View(), a) { UseRetires(View(), OpBind(a, proc), a); }
      var owned := FindOwned(a);
      if !owned { return Denied(Fenced); }
      Append(a.lease, leases[a.lease].(proc := Some(proc), version := a.version + 1), Bound);
      return Ok(a.(proc := Some(proc), version := a.version + 1));
    }

    method HeartbeatWriterLease(a: Authority, ttl: int, now: int) returns (r: Result<Authority>)
      requires Valid()
      modifies this
      ensures Valid() && View() == if ttl <= 0 then old(View()) else Beat(old(View()), a, now, now + ttl)
      ensures r == if ttl <= 0 then Denied(InvalidTtl)
                   else if Live(old(View()), a, now) then Ok(a.(version := a.version + 1)) else Denied(Fenced)
      ensures r.Ok? ==> Live(View(), r.value, now) && !CanAct(View(), a)
    {
      hide Inv;
      hide Dead;
      OwnerWritesInv(View(), OpBeat(a, now, now + ttl));
      if ttl <= 0 { return Denied(InvalidTtl); }
      var owned := FindOwned(a);
      if !owned || leases[a.lease].expires <= now { return Denied(Fenced); }
      Append(a.lease, leases[a.lease].(expires := now + ttl, version := a.version + 1), Heartbeat);
      return Ok(a.(version := a.version + 1));
    }

    method AssertWriterLease(a: Authority, now: int) returns (ok: bool)
      ensures ok <==> Live(View(), a, now)
    {
      var owned := FindOwned(a);
      ok := owned && leases[a.lease].expires > now;
    }

    /** Both updates of the two-phase release run in one transaction. */
    method ReleaseWriterLease(a: Authority, now: int) returns (ok: bool)
      requires Valid()
      modifies this
      ensures Valid() && View() == Release(old(View()), a, now)
      ensures ok <==> CanAct(old(View()), a)
      ensures ok ==> Retired(old(View()), View(), a.lease, OwnerReleased, now)
      ensures ok ==> forall owner: Owner, proc: Option<Proc> :: Granted(View(), a.ws, owner, proc).Some?
    {
      hide Inv;
      hide Retired;
      OwnerWritesInv(View(), OpRelease(a, now));
      ReleaseMeans(View(), a, now);
      if CanAct(View(), a) { ReleaseFrees(View(), a, now); }
      hide Free;
      ok := FindOwned(a);
      if !ok { return; }
      var releasing := leases[a.lease].(state := Releasing, version := leases[a.lease].version + 1);
      var released := releasing.(state := Released, releasedAt := Some(now), version := releasing.version + 1);
      Append(a.lease, released, OwnerReleased);
    }

    method RecoverExpiredWriterLease(id: Id, seen: Row, absent: bool, now: int) returns (r: Result<()>)
      requires Valid()
      modifies this
      ensures Valid() && View() == Recover(old(View()), id, seen, absent, now)
      ensures r.Ok? <==> absent && StillExpired(old(View()), id, seen, now)
      ensures if r.Ok? then Retired(old(View()), View(), id, Recovered, now) else View() == old(View())
      ensures r == Denied(Ambiguous) <==> seen.state != Active || seen.expires > now || !absent
    {
      hide Inv;
      hide Retired;
      EvidenceWritesInv(View(), OpRecover(id, seen, absent, now));
      RecoverMeans(View(), id, seen, absent, now);
      if seen.state != Active || seen.expires > now || !absent { return Denied(Ambiguous); }
      if id !in leases || !Unchanged(View(), id, seen) || leases[id].expires != seen.expires { return Denied(Fenced); }
      Append(id, leases[id].(state := Released, releasedAt := Some(now), version := seen.version + 1), Recovered);
      return Ok(());
    }

    method QuarantineWriterLease(id: Id, seen: Row) returns (r: Result<()>)
      requires Valid()
      modifies this
      ensures Valid() && View() == Quarantine(old(View()), id, seen)
      ensures r.Ok? <==> (seen.state == Active || seen.state == Releasing) && AsSeen(old(View()), id, seen, seen.state)
      ensures r.Ok? ==> leases[id].state == Quarantined && OnlyLease(old(View()), View(), id) && Logs(old(View()), View(), id, Froze)
      ensures r.Ok? <==> View() != old(View())
      ensures r == Denied(Corrupt) <==> seen.state != Active && seen.state != Releasing
    {
      hide Inv;
      hide OnlyLease, Logs;
      EvidenceWritesInv(View(), OpQuarantine(id, seen));
      QuarantineMeans(View(), id, seen);
      if seen.state != Active && seen.state != Releasing { return Denied(Corrupt); }
      if id !in leases || !Unchanged(View(), id, seen) { return Denied(Fenced); }
      Append(id, leases[id].(state := Quarantined, version := seen.version + 1), Froze);
      return Ok(());
    }

    method RepairQuarantinedWriterLease(id: Id, seen: Row, absent: bool, now: int) returns (r: Result<()>)
      requires Valid()
      modifies this
      ensures Valid() && View() == Repair(old(View()), id, seen, absent, now)
      ensures r.Ok? <==> absent && AsSeen(old(View()), id, seen, Quarantined)
      ensures if r.Ok? then Retired(old(View()), View(), id, Repaired, now) else View() == old(View())
      ensures r == Denied(Ambiguous) <==> !absent
    {
      hide Inv;
      hide Retired;
      EvidenceWritesInv(View(), OpRepair(id, seen, absent, now));
      RepairMeans(View(), id, seen, absent, now);
      if !absent { return Denied(Ambiguous); }
      if id !in leases || !Unchanged(View(), id, seen.(state := Quarantined)) { return Denied(Fenced); }
      Append(id, leases[id].(state := Released, releasedAt := Some(now), version := seen.version + 1), Repaired);
      return Ok(());
    }

    /** Deletes the lease rows that retention no longer covers. */
    method CleanupLeases(now: int, cutoff: int) returns (deleted: nat)
      requires Valid()
      modifies this
      ensures Valid() && View() == Cleanup(old(View()), now, cutoff)
      ensures deleted == |old(leases)| - |leases|
    {
      hide Inv;
      CleanupInv(View(), now, cutoff);
      var before := leases;
      leases := map id | id in leases && !Expendable(leases[id], now, cutoff) :: leases[id];
      assert leases.Keys <= before.Keys;
      SubsetCard(leases.Keys, before.Keys);
      deleted := |before| - |leases|;
    }

    /** One step of `rollback`. */
    method RollBackOne()
      requires Valid()
      modifies this
      ensures Valid() && View() == Down(old(View()))
    {
      hide Inv;
      DownInv(View());
      if schema == 3 {
        legacy := map id | id in leases :: Strip(leases[id]);
        leases := map[];
        schema, epoch := 2, epoch + 1;
      } else if schema == 2 {
        schema, legacy := 1, map[];
      } else if schema == 1 {
        schema, events := 0, [];
      }
    }
  }

  lemma GrantedCanAct(db: Db, ws: Ws, owner: Owner, expires: int, proc: Option<Proc>)
    ensures Granted(db, ws, owner, proc).Some? ==> CanAct(Acquire(db, ws, owner, expires, proc), Granted(db, ws, owner, proc).value)
  {
  }

  /** Once the current authority released, the workspace is free for the next generation. */
  lemma ReleaseFrees(db: Db, a: Authority, now: int)
    requires Inv(db) && CanAct(db, a)
    ensures Free(Release(db, a, now), a.ws) && Release(db, a, now).schema == 3
  {
    var t := Release(db, a, now);
    var row := db.leases[a.lease];
    assert NativeOk(row, a.lease, db.log, LastGeneration(db, row.ws), db.next);
    forall id | id in t.leases ensures !Blocks(t.leases[id], a.ws) {
      assert id != a.lease && Blocks(db.leases[id], row.ws) ==> !Blocks(row, row.ws);
    }
  }
}
