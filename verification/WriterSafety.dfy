/**
 * Writer admission and recovery of src/workspace-safety.ts over the fenced leases: many server instances on
 * many hosts share one lease table, owner processes start and exit at any time, and an instance may lose its
 * operating-system lock to another one at any point.
 *
 * Every transaction and every look at the process table is an event of its own, and so are the migrations of
 * the table and what older builds write to it while it is rolled back.  No event asks for the lock, so what is
 * proved here does not depend on it.
 */
module WriterSafety {
  import opened Common
  import opened WriterLease

  /** One process instance: a pid on a host with its start token. */
  datatype Inst = Inst(host: nat, proc: Proc)

  /** A process bound to a lease, as history. */
  datatype Binding = Binding(lease: Id, ws: Ws, generation: nat, inst: Inst)

  /**
   * `alive` are the running processes and `ever` all that ever ran.  `minted` are the authorities handed out,
   * `seenRows` the rows that some instance has read, and `absent` the processes that some instance on their own
   * host found gone.  `lost` are the open leases that an older build released or that went with the old table.
   */
  datatype World = World(db: Db, alive: set<Inst>, ever: set<Inst>, minted: set<Authority>,
                         seenRows: set<(Id, Row)>, absent: set<Inst>, bound: set<Binding>, lost: set<Id>)

  const Start := World(Empty, {}, {}, {}, {}, {}, {}, {})

  function InstOf(owner: Owner, proc: Option<Proc>): Option<Inst> {
    if owner.Owner? && proc.Some? then Some(Inst(owner.host, proc.value)) else None
  }

  /** Some instance on the right host has seen that the recorded owner process is gone. */
  predicate KnownAbsent(w: World, owner: Owner, proc: Option<Proc>) {
    InstOf(owner, proc).Some? && InstOf(owner, proc).value in w.absent
  }

  datatype Event =
    | Spawn(inst: Inst)
    | Exit(inst: Inst)
    | TakeLease(ws: Ws, owner: Owner, expires: int)
    | BindProcess(a: Authority, proc: Proc)
    | Renew(a: Authority, now: int, expires: int)
    | ReadRow(id: Id)
    | ProbeOwner(id: Id, row: Row)
    | ProbeOwn(a: Authority)
    | GiveBack(a: Authority, now: int)
    | RecoverLease(id: Id, seen: Row, now: int)
    | QuarantineLease(id: Id, seen: Row)
    | RepairLease(id: Id, seen: Row, now: int)
    | CleanUp(now: int, cutoff: int)
    | AddReader(ws: Ws, expires: int, releasedAt: Option<int>)
    | Migrate(op: Op)

  /** The migrations, and the transactions of builds from before fencing. */
  predicate Migration(op: Op) { op.OpDown? || op.OpUp? || op.OpOldAcquire? || op.OpOldRelease? }

  function Mint(w: World, a: Option<Authority>): set<Authority> {
    if a.Some? then w.minted + {a.value} else w.minted
  }

  function ProbeInst(w: World, inst: Option<Inst>): World {
    if inst.Some? && inst.value !in w.alive then w.(absent := w.absent + {inst.value}) else w
  }

  /** A pid with its start token never comes back, and a lease gets one process. */
  function Step(w: World, e: Event): World {
    match e
    case Spawn(inst) =>
      if inst in w.ever then w else w.(alive := w.alive + {inst}, ever := w.ever + {inst})
    case Exit(inst) => w.(alive := w.alive - {inst})
    case TakeLease(ws, owner, expires) =>
      w.(db := Acquire(w.db, ws, owner, expires, None), minted := Mint(w, Granted(w.db, ws, owner, None)))
    case BindProcess(a, proc) =>
      if a !in w.minted || !CanAct(w.db, a) || a.proc.Some? || !a.owner.Owner? || Inst(a.owner.host, proc) !in w.ever then w
      else
        w.(db := Bind(w.db, a, proc),
           minted := w.minted + {a.(proc := Some(proc), version := a.version + 1)},
           bound := w.bound + {Binding(a.lease, a.ws, a.generation, Inst(a.owner.host, proc))})
    case Renew(a, now, expires) =>
      if a !in w.minted || !Live(w.db, a, now) then w
      else w.(db := Beat(w.db, a, now, expires), minted := w.minted + {a.(version := a.version + 1)})
    case ReadRow(id) => if id !in w.db.leases then w else w.(seenRows := w.seenRows + {(id, w.db.leases[id])})
    case ProbeOwner(id, row) => if (id, row) !in w.seenRows then w else ProbeInst(w, InstOf(row.owner, row.proc))
    case ProbeOwn(a) => if a !in w.minted then w else ProbeInst(w, InstOf(a.owner, a.proc))
    case GiveBack(a, now) =>
      if a !in w.minted || (a.proc.Some? && !KnownAbsent(w, a.owner, a.proc)) then w
      else w.(db := Release(w.db, a, now))
    case RecoverLease(id, seen, now) =>
      if (id, seen) !in w.seenRows || !KnownAbsent(w, seen.owner, seen.proc) then w
      else w.(db := Recover(w.db, id, seen, true, now))
    case QuarantineLease(id, seen) => if (id, seen) !in w.seenRows then w else w.(db := Quarantine(w.db, id, seen))
    case RepairLease(id, seen, now) =>
      if (id, seen) !in w.seenRows || !KnownAbsent(w, seen.owner, seen.proc) then w
      else w.(db := Repair(w.db, id, seen, true, now))
    case CleanUp(now, cutoff) => w.(db := Cleanup(w.db, now, cutoff))
    case AddReader(ws, expires, releasedAt) => w.(db := InsertReader(w.db, ws, expires, releasedAt))
    case Migrate(op) =>
      if !Migration(op) then w else w.(db := WriterLease.Step(w.db, op), lost := w.lost + Loses(w.db, op))
  }

  function Run(events: seq<Event>): World {
    if events == [] then Start else Step(Run(events[..|events| - 1]), events[|events| - 1])
  }

  // ---------------------------------------------------------------- invariants

  /** The one lease that is not released has the newest generation. */
  ghost predicate Newest(db: Db) {
    forall id :: id in db.leases && db.leases[id].digest.Some? && db.leases[id].state != Released ==>
      db.leases[id].generation == LastGeneration(db, db.leases[id].ws)
  }

  /** A process is only recorded by a change of a row that has a token. */
  ghost predicate Versions(db: Db) {
    forall id :: id in db.leases ==> Versioned(db.leases[id])
  }

  predicate Versioned(row: Row) {
    row.generation >= 1 && row.version >= 1 && (row.version == 1 || row.digest.None? ==> row.proc.None?)
  }

  /** A row that was read is still there as it was, or has moved on for good, or went through a rollback. */
  ghost predicate ReadOk(db: Db, ever: set<Inst>, id: Id, row: Row) {
    && id < db.next && Versioned(row)
    && (id in db.leases ==>
          db.leases[id] == row || db.leases[id].version > row.version || db.leases[id].digest.None?)
    && (InstOf(row.owner, row.proc).Some? ==> InstOf(row.owner, row.proc).value in ever)
  }

  /** The row of a bound lease names the process, unless it went through a rollback; then it stays quarantined. */
  ghost predicate RowOf(row: Row, b: Binding) {
    && row.ws == b.ws && row.writer
    && if row.digest.Some? then row.generation == b.generation && InstOf(row.owner, row.proc) == Some(b.inst)
       else row.state != Active && row.proc.None? && (row.state != Released ==> row.version == 1)
  }

  /** While a bound process is alive its lease is open and the newest, exactly if it was not lost. */
  ghost predicate BoundOk(db: Db, lost: set<Id>, alive: set<Inst>, ever: set<Inst>, b: Binding) {
    && b.inst in ever && b.lease < db.next && 1 <= b.generation <= LastGeneration(db, b.ws)
    && (b.inst in alive ==> (Open(db, b.lease) <==> b.lease !in lost))
    && (b.inst in alive && b.lease !in lost ==> LastGeneration(db, b.ws) == b.generation)
    && (b.lease in db.leases ==> RowOf(db.leases[b.lease], b))
    && (b.lease in db.legacy ==> db.legacy[b.lease].ws == b.ws && db.legacy[b.lease].writer)
  }

  /** What was lost does not come back. */
  ghost predicate LostOk(db: Db, lost: set<Id>) {
    forall id :: id in lost ==> id < db.next && !Open(db, id)
  }

  ghost predicate Processes(w: World) {
    && w.alive <= w.ever
    && (forall inst :: inst in w.absent ==> inst in w.ever && inst !in w.alive)
    && (forall a :: a in w.minted && InstOf(a.owner, a.proc).Some? ==> InstOf(a.owner, a.proc).value in w.ever)
    && (forall id :: id in w.db.leases && InstOf(w.db.leases[id].owner, w.db.leases[id].proc).Some? ==>
          InstOf(w.db.leases[id].owner, w.db.leases[id].proc).value in w.ever)
  }

  ghost predicate Inv(w: World) {
    && WriterLease.Inv(w.db) && Newest(w.db) && Versions(w.db) && LostOk(w.db, w.lost) && Processes(w)
    && (forall r :: r in w.seenRows ==> ReadOk(w.db, w.ever, r.0, r.1))
    && (forall b :: b in w.bound ==> BoundOk(w.db, w.lost, w.alive, w.ever, b))
  }

  /** The transactions of a server instance, which names the owner process only once it runs. */
  predicate Everyday(op: Op) {
    !Migration(op) && (op.OpBind? ==> op.a.proc.None?) && (op.OpAcquire? ==> op.given.None?)
  }

  lemma NewestStep(db: Db, op: Op)
    requires WriterLease.Inv(db) && Newest(db)
    ensures Newest(WriterLease.Step(db, op))
  {
  }

  lemma VersionsStep(db: Db, op: Op)
    requires Versions(db) && (Everyday(op) || Migration(op))
    ensures Versions(WriterLease.Step(db, op))
  {
  }

  lemma LostStep(db: Db, lost: set<Id>, op: Op)
    requires WriterLease.Inv(db) && LostOk(db, lost)
    ensures LostOk(WriterLease.Step(db, op), lost + if Migration(op) then Loses(db, op) else {})
  {
  }

  lemma ReadStep(db: Db, ever: set<Inst>, id: Id, row: Row, op: Op)
    requires WriterLease.Inv(db) && (Everyday(op) || Migration(op)) && ReadOk(db, ever, id, row)
    ensures ReadOk(WriterLease.Step(db, op), ever, id, row)
  {
  }

  lemma BoundStep(db: Db, lost: set<Id>, alive: set<Inst>, ever: set<Inst>, b: Binding, op: Op)
    requires WriterLease.Inv(db) && Everyday(op) && BoundOk(db, lost, alive, ever, b)
    requires Open(db, b.lease) && !Open(WriterLease.Step(db, op), b.lease) ==> b.inst !in alive
    ensures BoundOk(WriterLease.Step(db, op), lost, alive, ever, b)
  {
  }

  lemma BoundMigrates(db: Db, lost: set<Id>, alive: set<Inst>, ever: set<Inst>, b: Binding, op: Op)
    requires WriterLease.Inv(db) && Migration(op) && BoundOk(db, lost, alive, ever, b) && LostOk(db, lost)
    ensures BoundOk(WriterLease.Step(db, op), lost + Loses(db, op), alive, ever, b)
  {
  }

  lemma ProcessesStep(w: World, op: Op, minted: set<Authority>)
    requires Processes(w) && (Everyday(op) || Migration(op)) && w.minted <= minted
    requires op.OpBind? && CanAct(w.db, op.a) && op.a.owner.Owner? ==> Inst(op.a.owner.host, op.proc) in w.ever
    requires forall a :: a in minted && a !in w.minted && InstOf(a.owner, a.proc).Some? ==> InstOf(a.owner, a.proc).value in w.ever
    ensures Processes(w.(db := WriterLease.Step(w.db, op), minted := minted))
  {
  }

  /** The transaction closes a lease whose bound process is alive. */
  predicate ClosesAlive(w: World, op: Op, b: Binding) {
    Open(w.db, b.lease) && !Open(WriterLease.Step(w.db, op), b.lease) && b.inst in w.alive
  }

  /** The state after a transaction, with the authorities and bindings it produced. */
  lemma TransactionInv(w: World, op: Op, minted: set<Authority>, bound: set<Binding>)
    requires Inv(w) && Everyday(op) && w.minted <= minted && w.bound <= bound
    requires op.OpBind? && CanAct(w.db, op.a) && op.a.owner.Owner? ==> Inst(op.a.owner.host, op.proc) in w.ever
    requires forall a :: a in minted && a !in w.minted && InstOf(a.owner, a.proc).Some? ==> InstOf(a.owner, a.proc).value in w.ever
    requires forall b :: b in w.bound ==> !ClosesAlive(w, op, b)
    requires forall b :: b in bound && b !in w.bound ==> BoundOk(WriterLease.Step(w.db, op), w.lost, w.alive, w.ever, b)
    ensures Inv(w.(db := WriterLease.Step(w.db, op), minted := minted, bound := bound))
  {
    var t := WriterLease.Step(w.db, op);
    WriterLease.StepInv(w.db, op);
    NewestStep(w.db, op);
    VersionsStep(w.db, op);
    LostStep(w.db, w.lost, op);
    ProcessesStep(w, op, minted);
    assert w.lost + {} == w.lost;
    hide WriterLease.Inv, WriterLease.Step, Newest, Versions, LostOk, Processes, BoundOk, ReadOk, Open;
    forall r | r in w.seenRows ensures ReadOk(t, w.ever, r.0, r.1) { ReadStep(w.db, w.ever, r.0, r.1, op); }
    forall b | b in bound ensures BoundOk(t, w.lost, w.alive, w.ever, b) {
      if b in w.bound {
        assert !ClosesAlive(w, op, b);
        BoundStep(w.db, w.lost, w.alive, w.ever, b, op);
      }
    }
  }

  /** A migration, or a write of an older build, keeps everything too, as long as what it loses is noted. */
  lemma MigrateInv(w: World, op: Op)
    requires Inv(w) && Migration(op)
    ensures Inv(Step(w, Migrate(op)))
  {
    hide WriterLease.Inv, WriterLease.Step, Newest, Versions, LostOk, Processes, BoundOk, ReadOk, Loses;
    var t, lost := WriterLease.Step(w.db, op), w.lost + Loses(w.db, op);
    WriterLease.StepInv(w.db, op);
    NewestStep(w.db, op);
    VersionsStep(w.db, op);
    LostStep(w.db, w.lost, op);
    ProcessesStep(w, op, w.minted);
    MigratedProcesses(w, t, lost);
    forall r | r in w.seenRows ensures ReadOk(t, w.ever, r.0, r.1) { ReadStep(w.db, w.ever, r.0, r.1, op); }
    forall b | b in w.bound ensures BoundOk(t, lost, w.alive, w.ever, b) {
      BoundMigrates(w.db, w.lost, w.alive, w.ever, b, op);
    }
  }

  lemma MigratedProcesses(w: World, t: Db, lost: set<Id>)
    requires Processes(w.(db := t, minted := w.minted))
    ensures Processes(w.(db := t, lost := lost))
  {
  }

  /** A transaction that closes no lease and makes no binding. */
  lemma PlainInv(w: World, op: Op, minted: set<Authority>)
    requires Inv(w) && Everyday(op) && w.minted <= minted
    requires op.OpAcquire? || op.OpBeat? || op.OpQuarantine? || op.OpCleanup? || op.OpReader?
    requires forall a :: a in minted && a !in w.minted && InstOf(a.owner, a.proc).Some? ==> InstOf(a.owner, a.proc).value in w.ever
    ensures Inv(w.(db := WriterLease.Step(w.db, op), minted := minted))
  {
    forall b | b in w.bound ensures !ClosesAlive(w, op, b) {
      assert BoundOk(w.db, w.lost, w.alive, w.ever, b);
      PlainCloses(w.db, op, b);
    }
    var t := WriterLease.Step(w.db, op);
    assert w.(db := t, minted := minted) == w.(db := t, minted := minted, bound := w.bound);
    hide Inv, WriterLease.Step;
    TransactionInv(w, op, minted, w.bound);
  }

  lemma PlainCloses(db: Db, op: Op, b: Binding)
    requires Rows(db) && (b.lease in db.leases ==> RowOf(db.leases[b.lease], b))
    requires op.OpAcquire? || op.OpBeat? || op.OpQuarantine? || op.OpCleanup? || op.OpReader?
    ensures Open(db, b.lease) ==> Open(WriterLease.Step(db, op), b.lease)
  {
  }

  /** A transaction that closes lease `id` whose recorded owner process is known to be gone. */
  lemma ClosingInv(w: World, op: Op, id: Id)
    requires Inv(w)
    requires (op.OpRelease? && op.a.lease == id) || ((op.OpRecover? || op.OpRepair?) && op.id == id)
    requires WriterLease.Step(w.db, op) != w.db && id in w.db.leases ==>
               && (w.db.leases[id].proc.Some? ==> KnownAbsent(w, w.db.leases[id].owner, w.db.leases[id].proc))
               && (w.db.leases[id].digest.None? ==> forall b :: b in w.bound ==> b.lease != id)
    ensures Inv(w.(db := WriterLease.Step(w.db, op)))
  {
    forall b | b in w.bound ensures !ClosesAlive(w, op, b) {
      assert BoundOk(w.db, w.lost, w.alive, w.ever, b);
      if b.lease != id && Open(w.db, b.lease) { ClosesOne(w.db, op, id, b.lease); }
    }
    var t := WriterLease.Step(w.db, op);
    assert w.(db := t) == w.(db := t, minted := w.minted, bound := w.bound);
    hide Inv, WriterLease.Step;
    TransactionInv(w, op, w.minted, w.bound);
  }

  lemma ClosesOne(db: Db, op: Op, id: Id, other: Id)
    requires (op.OpRelease? && op.a.lease == id) || ((op.OpRecover? || op.OpRepair?) && op.id == id)
    requires other != id && Open(db, other)
    ensures Open(WriterLease.Step(db, op), other)
  {
  }

  lemma ProcessEventInv(w: World, e: Event)
    requires Inv(w) && (e.Spawn? || e.Exit? || e.ReadRow? || e.ProbeOwner? || e.ProbeOwn?)
    ensures Inv(Step(w, e))
  {
    var t := Step(w, e);
    forall r | r in t.seenRows ensures ReadOk(t.db, t.ever, r.0, r.1) {
      assert r in w.seenRows ==> ReadOk(w.db, w.ever, r.0, r.1);
    }
    forall b | b in t.bound ensures BoundOk(t.db, t.lost, t.alive, t.ever, b) {
      assert BoundOk(w.db, w.lost, w.alive, w.ever, b);
    }
    hide WriterLease.Inv, Newest, LostOk;
    assert e.ProbeOwner? && t != w ==> ReadOk(w.db, w.ever, e.id, e.row);
    assert Processes(t);
  }

  lemma BindClosesNone(db: Db, a: Authority, proc: Proc, id: Id)
    ensures Open(db, id) ==> Open(Bind(db, a, proc), id)
  {
  }

  lemma BoundNow(db: Db, lost: set<Id>, alive: set<Inst>, ever: set<Inst>, a: Authority, proc: Proc)
    requires WriterLease.Inv(db) && Newest(db) && Versions(db) && LostOk(db, lost) && CanAct(db, a) && a.owner.Owner?
    requires a.proc.None? && Inst(a.owner.host, proc) in ever
    ensures BoundOk(Bind(db, a, proc), lost, alive, ever, Binding(a.lease, a.ws, a.generation, Inst(a.owner.host, proc)))
  {
  }

  lemma BindInv(w: World, a: Authority, proc: Proc)
    requires Inv(w)
    ensures Inv(Step(w, BindProcess(a, proc)))
  {
    var e := BindProcess(a, proc);
    var t := Step(w, e);
    if t != w {
      var op := OpBind(a, proc);
      var b := Binding(a.lease, a.ws, a.generation, Inst(a.owner.host, proc));
      assert BoundOk(t.db, w.lost, w.alive, w.ever, b) by { BoundNow(w.db, w.lost, w.alive, w.ever, a, proc); }
      forall c | c in w.bound ensures !ClosesAlive(w, op, c) {
        BindClosesNone(w.db, a, proc, c.lease);
      }
      assert t == w.(db := WriterLease.Step(w.db, op), minted := t.minted, bound := t.bound);
      hide Inv;
      TransactionInv(w, op, t.minted, t.bound);
    }
  }

  lemma EvidenceInv(w: World, e: Event)
    requires Inv(w) && (e.RecoverLease? || e.RepairLease?)
    ensures Inv(Step(w, e))
  {
    var op := if e.RecoverLease? then OpRecover(e.id, e.seen, true, e.now) else OpRepair(e.id, e.seen, true, e.now);
    if Step(w, e) != w {
      assert ReadOk(w.db, w.ever, e.id, e.seen);
      assert forall b :: b in w.bound ==> BoundOk(w.db, w.lost, w.alive, w.ever, b);
      assert Step(w, e) == w.(db := WriterLease.Step(w.db, op));
      hide Inv;
      ClosingInv(w, op, e.id);
    }
  }

  lemma StepInv(w: World, e: Event)
    requires Inv(w)
    ensures Inv(Step(w, e))
  {
    hide Inv;
    match e
    case TakeLease(ws, owner, expires) => PlainInv(w, OpAcquire(ws, owner, expires, None), Mint(w, Granted(w.db, ws, owner, None)));
    case BindProcess(a, proc) => BindInv(w, a, proc);
    case Renew(a, now, expires) => RenewInv(w, a, now, expires);
    case GiveBack(a, now) =>
      if a.proc.None? || KnownAbsent(w, a.owner, a.proc) { ClosingInv(w, OpRelease(a, now), a.lease); }
    case RecoverLease(_, _, _) => EvidenceInv(w, e);
    case RepairLease(_, _, _) => EvidenceInv(w, e);
    case QuarantineLease(id, seen) => PlainInv(w, OpQuarantine(id, seen), w.minted);
    case CleanUp(now, cutoff) => PlainInv(w, OpCleanup(now, cutoff), w.minted);
    case AddReader(ws, expires, releasedAt) => PlainInv(w, OpReader(ws, expires, releasedAt), w.minted);
    case Migrate(op) => if Migration(op) { MigrateInv(w, op); }
    case Spawn(_) => ProcessEventInv(w, e);
    case Exit(_) => ProcessEventInv(w, e);
    case ReadRow(_) => ProcessEventInv(w, e);
    case ProbeOwner(_, _) => ProcessEventInv(w, e);
    case ProbeOwn(_) => ProcessEventInv(w, e);
  }

  lemma RenewInv(w: World, a: Authority, now: int, expires: int)
    requires Inv(w)
    ensures Inv(Step(w, Renew(a, now, expires)))
  {
    var t := Step(w, Renew(a, now, expires));
    if t != w {
      assert InstOf(a.owner, a.proc).Some? ==> InstOf(a.owner, a.proc).value in w.ever;
      hide Inv;
      PlainInv(w, OpBeat(a, now, expires), t.minted);
    }
  }

  lemma {:induction false} RunInv(events: seq<Event>)
    ensures Inv(Run(events))
  {
    if events == [] {
      WriterLease.RunInv([]);
    } else {
      RunInv(events[..|events| - 1]);
      hide Inv, Step;
      StepInv(Run(events[..|events| - 1]), events[|events| - 1]);
    }
  }

  // ---------------------------------------------------------------- what holds over every run

  /**
   * No newer writer generation of a workspace exists while a process that was bound to an earlier one is still
   * alive, through every rollback and migration that does not lose the lease.
   */
  lemma NoSecondWriterWhileAlive(events: seq<Event>, b: Binding)
    requires b in Run(events).bound && b.inst in Run(events).alive && b.lease !in Run(events).lost
    ensures LastGeneration(Run(events).db, b.ws) == b.generation
  {
    RunInv(events);
    var w := Run(events);
    assert BoundOk(w.db, w.lost, w.alive, w.ever, b);
  }

  /** While it is alive its lease is open, if and only if the lease was not lost. */
  lemma OpenExactlyUnlessLost(events: seq<Event>, b: Binding)
    requires b in Run(events).bound && b.inst in Run(events).alive
    ensures Open(Run(events).db, b.lease) <==> b.lease !in Run(events).lost
  {
    RunInv(events);
    var w := Run(events);
    assert BoundOk(w.db, w.lost, w.alive, w.ever, b);
  }

  /**
   * So nobody is admitted to the workspace, whatever clocks and locks say: no instance is granted it, and while
   * the table is rolled back no older build acquires it.
   */
  lemma AliveOwnerKeepsWorkspace(events: seq<Event>, b: Binding, owner: Owner, proc: Option<Proc>, expires: int)
    requires b in Run(events).bound && b.inst in Run(events).alive && b.lease !in Run(events).lost
    ensures Granted(Run(events).db, b.ws, owner, proc) == None
    ensures Run(events).db.schema == 2 ==> OldAcquire(Run(events).db, b.ws, true, owner, expires) == Run(events).db
  {
    RunInv(events);
    var w := Run(events);
    assert BoundOk(w.db, w.lost, w.alive, w.ever, b);
    if b.lease in w.db.leases { assert Blocks(w.db.leases[b.lease], b.ws); }
    else { assert OldBlocks(w.db.legacy[b.lease], b.ws); }
  }

  /** A process runs bound to generation 1 while the table is rolled back and an older build releases its row. */
  function ReleasedUnderneath(inst: Inst, owner: Owner): seq<Event> {
    [Spawn(inst), TakeLease(0, owner, 10), BindProcess(Authority(0, 0, owner, 1, 0, 1, None), inst.proc),
     Migrate(OpDown), Migrate(OpOldRelease(0, 5)), Migrate(OpUp), TakeLease(0, owner, 20)]
  }

  lemma After(events: seq<Event>, e: Event)
    ensures Run(events + [e]) == Step(Run(events), e)
  {
    assert (events + [e])[..|events|] == events;
  }

  lemma BoundFirst(inst: Inst, owner: Owner)
    requires owner.Owner? && owner.host == inst.host
    ensures
      var w := Run(ReleasedUnderneath(inst, owner)[..3]);
      var row := Row(0, true, owner, 1, Some(0), Active, 10, None, 2, Some(inst.proc));
      && w.db == Db(3, map[0 := row], map[], map[0 := 1], w.db.log, 1, 0, [(0, 1)])
      && w.alive == {inst} && w.bound == {Binding(0, 0, 1, inst)} && w.lost == {}
  {
    var all := ReleasedUnderneath(inst, owner);
    var a := Authority(0, 0, owner, 1, 0, 1, None);
    After([], all[0]);
    After(all[..1], all[1]);
    After(all[..2], all[2]);
    assert all[..1] == [] + [all[0]] && all[..2] == all[..1] + [all[1]] && all[..3] == all[..2] + [all[2]];
    var w := Run(all[..2]);
    assert w.db.leases == map[0 := Row(0, true, owner, 1, Some(0), Active, 10, None, 1, None)];
    assert w.minted == {a} && w.ever == {inst};
    assert CanAct(w.db, a);
  }

  lemma LosesFirst(w: World, row: Row)
    requires w.db == Db(3, map[0 := row], map[], map[0 := 1], w.db.log, 1, 0, w.db.issued)
    requires row.ws == 0 && row.releasedAt.None?
    ensures
      var t := Step(Step(w, Migrate(OpDown)), Migrate(OpOldRelease(0, 5)));
      && t.db == Db(2, map[], map[0 := Strip(row).(releasedAt := Some(5))], map[0 := 1], w.db.log, 1, 1, w.db.issued)
      && t.lost == w.lost + {0} && t.bound == w.bound && t.alive == w.alive
  {
    var d := Step(w, Migrate(OpDown));
    assert d.db.legacy == map[0 := Strip(row)];
    assert Loses(w.db, OpDown) == {} && Loses(d.db, OpOldRelease(0, 5)) == {0};
  }

  lemma AdmitsSecond(w: World, o: OldRow, owner: Owner)
    requires w.db == Db(2, map[], map[0 := o], map[0 := 1], w.db.log, 1, 1, w.db.issued)
    requires o.ws == 0 && o.releasedAt.Some?
    ensures
      var t := Step(Step(w, Migrate(OpUp)), TakeLease(0, owner, 20));
      LastGeneration(t.db, 0) == 2 && t.lost == w.lost && t.bound == w.bound && t.alive == w.alive
  {
    var u := Step(w, Migrate(OpUp));
    assert u.db.leases == map[0 := Upgrade(o)] && Free(u.db, 0);
    assert Loses(w.db, OpUp) == {};
  }

  /** That loses the lease, and a second writer is admitted while the process still runs. */
  lemma LostLeaseAdmitsSecond(inst: Inst, owner: Owner)
    requires owner.Owner? && owner.host == inst.host
    ensures
      var w := Run(ReleasedUnderneath(inst, owner));
      && Binding(0, 0, 1, inst) in w.bound && inst in w.alive && 0 in w.lost && LastGeneration(w.db, 0) == 2
  {
    var all := ReleasedUnderneath(inst, owner);
    BoundFirst(inst, owner);
    var w := Run(all[..3]);
    assert w.db.leases.Keys == {0};
    LosesFirst(w, w.db.leases[0]);
    AdmitsSecond(Step(Step(w, all[3]), all[4]), Strip(w.db.leases[0]).(releasedAt := Some(5)), owner);
    hide Run, Step, LastGeneration;
    After(all[..3], all[3]);
    After(all[..4], all[4]);
    After(all[..5], all[5]);
    After(all[..6], all[6]);
    assert all[..4] == all[..3] + [all[3]] && all[..5] == all[..4] + [all[4]];
    assert all[..6] == all[..5] + [all[5]] && all == all[..6] + [all[6]];
  }

  // ---------------------------------------------------------------- what evidence is enough for

  lemma ProbedAbsent(w: World, id: Id)
    requires id in w.db.leases
    requires
      var row := w.db.leases[id];
      InstOf(row.owner, row.proc).Some? && InstOf(row.owner, row.proc).value !in w.alive
    ensures
      var row := w.db.leases[id];
      var probed := Step(Step(w, ReadRow(id)), ProbeOwner(id, row));
      probed.db == w.db && (id, row) in probed.seenRows && KnownAbsent(probed, row.owner, row.proc)
  {
  }

  /** Once the recorded owner process has exited, reading the row, probing and recovering retires an expired lease. */
  lemma DeadOwnerIsRetired(w: World, id: Id, now: int)
    requires Inv(w) && id in w.db.leases && w.db.leases[id].state != Released
    requires
      var row := w.db.leases[id];
      InstOf(row.owner, row.proc).Some? && InstOf(row.owner, row.proc).value !in w.alive
    ensures
      var row := w.db.leases[id];
      var probed := Step(Step(w, ReadRow(id)), ProbeOwner(id, row));
      && (row.state == Active && row.expires <= now ==> Retired(w.db, Step(probed, RecoverLease(id, row, now)).db, id, Recovered, now))
      && (row.state == Quarantined ==> Retired(w.db, Step(probed, RepairLease(id, row, now)).db, id, Repaired, now))
  {
    hide Retired, WriterLease.Inv, Newest, Versions, LostOk, Processes, ReadOk, BoundOk, KnownAbsent, Recover, Repair;
    ProbedAbsent(w, id);
    RecoverMeans(w.db, id, w.db.leases[id], true, now);
    RepairMeans(w.db, id, w.db.leases[id], true, now);
  }

  /** On a free workspace a lease is granted, and the process that was started can be bound to it. */
  lemma TakenAndBound(w: World, ws: Ws, owner: Owner, expires: int, proc: Proc)
    requires Inv(w) && w.db.schema == 3 && owner.Owner? && Inst(owner.host, proc) in w.ever
    requires forall i :: i in w.db.leases && w.db.leases[i].ws == ws && w.db.leases[i].writer ==> w.db.leases[i].state == Released
    ensures
      var taken := Step(w, TakeLease(ws, owner, expires));
      var g := LastGeneration(w.db, ws) + 1;
      exists a: Authority ::
        && a in taken.minted && a.ws == ws && a.owner == owner && a.generation == g && CanAct(taken.db, a)
        && Binding(a.lease, ws, g, Inst(owner.host, proc)) in Step(taken, BindProcess(a, proc)).bound
  {
    assert Free(w.db, ws);
    var taken := Step(w, TakeLease(ws, owner, expires));
    GrantedCanAct(w.db, ws, owner, expires, None);
    var a := Granted(w.db, ws, owner, None).value;
    assert a in taken.minted && CanAct(taken.db, a);
    hide Inv, WriterLease.Inv;
    assert Binding(a.lease, ws, a.generation, Inst(owner.host, proc)) in Step(taken, BindProcess(a, proc)).bound;
  }

  /** An authority whose process has exited, or that never had one, gives its lease back. */
  lemma GivenBack(w: World, a: Authority, now: int)
    requires Inv(w) && a in w.minted && CanAct(w.db, a)
    requires a.proc.Some? ==> InstOf(a.owner, a.proc).Some? && InstOf(a.owner, a.proc).value !in w.alive
    ensures Retired(w.db, Step(Step(w, ProbeOwn(a)), GiveBack(a, now)).db, a.lease, OwnerReleased, now)
  {
    var probed := Step(w, ProbeOwn(a));
    assert probed.db == w.db && a in probed.minted && (a.proc.Some? ==> KnownAbsent(probed, a.owner, a.proc));
    ReleaseMeans(w.db, a, now);
    hide Retired, WriterLease.Inv, Newest, Versions, LostOk, Processes, ReadOk, BoundOk;
  }

  // ---------------------------------------------------------------- one server instance

  /** What the process table of this host says about a pid. */
  datatype Probe = Probe(running: bool, start: Option<nat>)

  datatype OwnerProcess = Absent | Alive | Unverifiable

  function OwnerProcessState(host: nat, owner: Owner, proc: Option<Proc>, probe: Probe): OwnerProcess {
    if !owner.Owner? || owner.host != host then Unverifiable
    else if proc.None? then Unverifiable
    else if !probe.running then Absent
    else if probe.start.None? then Unverifiable
    else if probe.start.value == proc.value.start then Alive
    else Absent
  }

  /** A probe taken from a process table: no process, or the one instance that has the pid. */
  ghost predicate Truthful(probe: Probe, host: nat, pid: nat, alive: set<Inst>) {
    && (!probe.running ==> forall i :: i in alive && i.host == host ==> i.proc.pid != pid)
    && (probe.running && probe.start.Some? ==>
          forall i :: i in alive && i.host == host && i.proc.pid == pid ==> i.proc.start == probe.start.value)
  }

  /** "Absent" is always true: the very instance that was recorded is gone, even if its pid is in use again. */
  lemma AbsentIsTrue(host: nat, owner: Owner, proc: Option<Proc>, probe: Probe, alive: set<Inst>)
    requires OwnerProcessState(host, owner, proc, probe) == Absent && Truthful(probe, host, proc.value.pid, alive)
    ensures InstOf(owner, proc).Some? && InstOf(owner, proc).value !in alive
  {
  }

  /** The verdict on an owner needs its own host and a recorded process; without a start token a running pid proves nothing. */
  lemma OwnerProcessMeans(host: nat, owner: Owner, proc: Option<Proc>, probe: Probe)
    ensures
      var verdict := OwnerProcessState(host, owner, proc, probe);
      var here := owner.Owner? && owner.host == host && proc.Some?;
      && (verdict == Absent <==> here && (!probe.running || (probe.start.Some? && probe.start.value != proc.value.start)))
      && (verdict == Alive <==> here && probe.running && probe.start == Some(proc.value.start))
      && (verdict == Unverifiable <==> !here || (probe.running && probe.start.None?))
  {
  }

  datatype Verdict = Done | Uncertain | Stale

  class WorkspaceSafetyTool {
    const storage: OrchestratorStorage
    const hostId: nat
    const serverInstanceId: nat
    /** Leases whose operating-system lock this instance holds. */
    var heldLocks: set<Id>

    constructor (storage: OrchestratorStorage, hostId: nat, serverInstanceId: nat)
      ensures this.storage == storage && this.hostId == hostId && this.serverInstanceId == serverInstanceId
      ensures heldLocks == {}
    {
      this.storage, this.hostId, this.serverInstanceId := storage, hostId, serverInstanceId;
      heldLocks := {};
    }

    /** `locked`: the exclusive lock file could be taken. */
    method AcquireWriter(ws: Ws, batch: nat, session: Option<nat>, ttl: int, now: int, locked: bool)
      returns (r: Result<Authority>)
      requires storage.Valid() && storage.schema == 3
      modifies this, storage
      ensures storage.Valid()
      ensures !locked || ttl <= 0 ==> r.Denied? && storage.View() == old(storage.View()) && heldLocks == old(heldLocks)
      ensures locked && ttl > 0 ==> storage.View() == Acquire(old(storage.View()), ws, Owner(batch, session, serverInstanceId, hostId), now + ttl, None)
      ensures r.Ok? <==> locked && ttl > 0 && Free(old(storage.View()), ws)
      ensures r.Ok? ==> CanAct(storage.View(), r.value) && heldLocks == old(heldLocks) + {r.value.lease}
      ensures r.Denied? ==> heldLocks == old(heldLocks)
    {
      hide WriterLease.Inv, CanAct;
      if !locked { return Denied(WriterBusy(Active)); }
      r := storage.AcquireWriterLease(ws, Owner(batch, session, serverInstanceId, hostId), ttl, now, None);
      if r.Ok? { heldLocks := heldLocks + {r.value.lease}; }
    }

    method BindProcess(a: Authority, pid: nat, probe: Probe) returns (r: Result<Authority>)
      requires storage.Valid()
      modifies storage
      ensures storage.Valid()
      ensures storage.View() == if a.lease in heldLocks && probe.start.Some?
                                then Bind(old(storage.View()), a, Proc(pid, probe.start.value)) else old(storage.View())
      ensures r.Ok? <==> a.lease in heldLocks && probe.start.Some? && CanAct(old(storage.View()), a)
      ensures r.Ok? ==> CanAct(storage.View(), r.value)
    {
      hide WriterLease.Inv, CanAct;
      if a.lease !in heldLocks || probe.start.None? { return Denied(WriterLease.Ambiguous); }
      r := storage.BindWriterProcess(a, Proc(pid, probe.start.value));
    }

    /** The durable release comes first, then the lock. */
    method ReleaseWriter(a: Authority, probe: Probe, now: int) returns (v: Verdict)
      requires storage.Valid()
      modifies this, storage
      ensures storage.Valid()
      ensures var owner := if a.lease in old(storage.leases) then old(storage.leases)[a.lease].owner else Nobody;
              var cleared := a.proc.None? || OwnerProcessState(hostId, owner, a.proc, probe) == Absent;
              && (v == Uncertain <==> a.lease !in old(heldLocks) || !cleared)
              && (v == Done <==> a.lease in old(heldLocks) && cleared && CanAct(old(storage.View()), a))
      ensures v == Done ==> storage.View() == Release(old(storage.View()), a, now) && heldLocks == old(heldLocks) - {a.lease}
      ensures v != Done ==> storage.View() == old(storage.View()) && heldLocks == old(heldLocks)
    {
      hide WriterLease.Inv, CanAct;
      if a.lease !in heldLocks { return Uncertain; }
      var owner := if a.lease in storage.leases then storage.leases[a.lease].owner else Nobody;
      if a.proc.Some? && OwnerProcessState(hostId, owner, a.proc, probe) != Absent {
        return Uncertain;
      }
      var ok := storage.ReleaseWriterLease(a, now);
      if !ok { return Stale; }
      heldLocks := heldLocks - {a.lease};
      return Done;
    }

    /**
     * Reconciles one workspace: `found` is the lease that blocked it when its row was read; other servers may
     * have changed the row since.  A live owner is preserved, inconclusive evidence freezes the lease, proven
     * absence retires it.
     */
    method RecoverWorkspace(found: Option<(Id, Row)>, locked: bool, probe: Probe, now: int) returns (v: Verdict)
      requires storage.Valid() && (found.Some? ==> Blocks(found.value.1, found.value.1.ws))
      modifies this, storage
      ensures storage.Valid()
      ensures found.None? ==> v == Done && storage.View() == old(storage.View()) && heldLocks == old(heldLocks)
      ensures found.Some? ==>
                var (id, seen) := found.value;
                (seen.state == Quarantined || id in old(heldLocks) || !locked ==>
                   storage.View() == old(storage.View()) && heldLocks == old(heldLocks)
                   && v == (if seen.state != Quarantined && id in old(heldLocks) then Done else Uncertain))
      ensures found.Some? ==>
                var (id, seen) := found.value;
                var own := OwnerProcessState(hostId, seen.owner, seen.proc, probe);
                seen.state != Quarantined && id !in old(heldLocks) && locked ==>
                  if own != Absent then
                    && storage.View() == Quarantine(old(storage.View()), id, seen)
                    && (if Unchanged(old(storage.View()), id, seen) then v == Uncertain && heldLocks == old(heldLocks) + {id}
                        else v == Stale && heldLocks == old(heldLocks))
                  else
                    && storage.View() == Recover(old(storage.View()), id, seen, true, now) && heldLocks == old(heldLocks)
                    && (v == Done <==> StillExpired(old(storage.View()), id, seen, now))
                    && (v == Done ==> Retired(old(storage.View()), storage.View(), id, Recovered, now))
                    && (v == Uncertain <==> seen.state != Active || seen.expires > now)
    {
      hide WriterLease.Inv, Retired;
      if found.None? { return Done; }
      var (id, seen) := found.value;
      if seen.state == Quarantined { return Uncertain; }
      if id in heldLocks { return Done; }
      if !locked { return Uncertain; }
      ghost var before := storage.View();
      var own := OwnerProcessState(hostId, seen.owner, seen.proc, probe);
      if own != Absent {
        var q := storage.QuarantineWriterLease(id, seen);
        assert Unchanged(before, id, seen) ==> |storage.View().log| > |before.log|;
        if q.Denied? { return Stale; }
        heldLocks := heldLocks + {id};
        return Uncertain;
      }
      var r := storage.RecoverExpiredWriterLease(id, seen, true, now);
      return if r.Ok? then Done else if r.why == WriterLease.Ambiguous then Uncertain else Stale;
    }

    method RepairQuarantine(id: Id, locked: bool, probe: Probe, now: int) returns (v: Verdict)
      requires storage.Valid()
      modifies this, storage
      ensures storage.Valid()
      ensures v == Done <==>
                && id in old(storage.leases) && old(storage.leases)[id].state == Quarantined
                && (id in old(heldLocks) || locked)
                && OwnerProcessState(hostId, old(storage.leases)[id].owner, old(storage.leases)[id].proc, probe) == Absent
      ensures v == Done ==> Retired(old(storage.View()), storage.View(), id, Repaired, now)
      ensures v == Done ==> storage.View() == Repair(old(storage.View()), id, old(storage.leases)[id], true, now)
                            && heldLocks == old(heldLocks) - {id}
      ensures v != Done ==> storage.View() == old(storage.View()) && heldLocks == old(heldLocks)
    {
      hide WriterLease.Inv, Retired;
      if id !in storage.leases || storage.leases[id].state != Quarantined { return Uncertain; }
      if id !in heldLocks && !locked { return Uncertain; }
      var seen := storage.leases[id];
      if OwnerProcessState(hostId, seen.owner, seen.proc, probe) != Absent { return Uncertain; }
      var r := storage.RepairQuarantinedWriterLease(id, seen, true, now);
      heldLocks := heldLocks - {id};
      return Done;
    }
  }
}
