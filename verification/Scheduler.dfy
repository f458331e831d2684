/**
 * Admission control of src/concurrency-scheduler.ts.
 *
 * `State` is what the scheduler object holds between two synchronous segments.  Every segment of the
 * program (a call, an abort callback, a timer callback, the continuation after the pressure hooks) is one
 * `Event`, and `Step` says what that segment does.  The class `ConcurrencyScheduler` at the end runs the
 * segments on mutable fields, and each of its methods is proved to perform exactly the matching `Step`.
 */
module Scheduler {
  import opened Common

  // ---------------------------------------------------------------- requests and limits

  datatype Scope = Scope(host: string, project: string, agent: string, workspace: string)

  datatype Request = Request(id: string, scope: Scope)
  {
    predicate Valid() {
      id != "" && scope.host != "" && scope.project != "" && scope.agent != "" && scope.workspace != ""
    }
  }

  datatype Overload = Queue | Reject

  /** `hooks` says whether any pressure hook is installed. */
  datatype Policy = Policy(global: nat, perHost: nat, perProject: nat, perAgent: nat, perWorkspace: nat,
                           maxQueued: nat, overload: Overload, hooks: bool)
  {
    predicate Valid() {
      global > 0 && perHost > 0 && perProject > 0 && perAgent > 0 && perWorkspace > 0
    }
  }

  /** The five capacity dimensions; every request shares the single key of `Global`. */
  datatype Dim = Global | Host | Project | Agent | Workspace

  function Key(d: Dim, s: Scope): string {
    match d
    case Global => ""
    case Host => s.host
    case Project => s.project
    case Agent => s.agent
    case Workspace => s.workspace
  }

  function Limit(p: Policy, d: Dim): nat {
    match d
    case Global => p.global
    case Host => p.perHost
    case Project => p.perProject
    case Agent => p.perAgent
    case Workspace => p.perWorkspace
  }

  // ---------------------------------------------------------------- state

  /** Whether a permit came through the queue or was taken for an execution that already exists. */
  datatype Origin = FromQueue | Existing

  /** `serial` numbers the release closures in the order `activate` made them. */
  datatype Permit = Permit(serial: nat, request: Request, origin: Origin)

  /** `ticket` stands for the object identity of a pending request. */
  datatype Pending = Pending(ticket: nat, request: Request, readyAt: int)

  /** How the promise returned by `acquire` settled. */
  datatype Outcome = Admitted(serial: nat) | Cancelled | Overloaded

  /**
   * `awaiting` is the pending request a suspended `drain` waits on.  The last four components are history:
   * every request ever queued (by ticket), how each settled, the id behind every release closure, and the
   * closures already used.
   */
  datatype State = State(queue: seq<Pending>, active: map<string, Permit>, timer: bool, draining: bool,
                         awaiting: Option<nat>,
                         requests: seq<Request>, settled: map<nat, Outcome>, issued: seq<string>,
                         released: set<nat>)

  const Init := State([], map[], false, false, None, [], map[], [], {})

  function Members(active: map<string, Permit>, d: Dim, v: string): set<string> {
    set id | id in active && Key(d, active[id].request.scope) == v
  }

  /** The members that were admitted from the queue. */
  function Granted(active: map<string, Permit>, d: Dim, v: string): set<string> {
    set id | id in active && Key(d, active[id].request.scope) == v && active[id].origin.FromQueue?
  }

  predicate Full(p: Policy, active: map<string, Permit>, r: Request, d: Dim) {
    |Members(active, d, Key(d, r.scope))| >= Limit(p, d)
  }

  /** The limits that block a request, in the order the program reports them. */
  function BlockedBy(p: Policy, active: map<string, Permit>, r: Request): seq<Dim> {
    (if Full(p, active, r, Global) then [Global] else []) +
    (if Full(p, active, r, Host) then [Host] else []) +
    (if Full(p, active, r, Project) then [Project] else []) +
    (if Full(p, active, r, Agent) then [Agent] else []) +
    (if Full(p, active, r, Workspace) then [Workspace] else [])
  }

  lemma UnblockedMeansRoom(p: Policy, active: map<string, Permit>, r: Request)
    ensures BlockedBy(p, active, r) == [] <==> forall d: Dim :: !Full(p, active, r, d)
  {
    if BlockedBy(p, active, r) == [] {
      forall d: Dim ensures !Full(p, active, r, d) {
        match d case Global => case Host => case Project => case Agent => case Workspace =>
      }
    }
  }

  predicate Known(s: State, id: string) {
    id in s.active || exists i :: 0 <= i < |s.queue| && s.queue[i].request.id == id
  }

  // ---------------------------------------------------------------- segments

  function Activate(s: State, r: Request, origin: Origin): State {
    s.(active := s.active[r.id := Permit(|s.issued|, r, origin)], issued := s.issued + [r.id])
  }

  function Admit(s: State): State
    requires s.queue != []
  {
    var head := s.queue[0];
    Activate(s.(queue := s.queue[1..], settled := s.settled[head.ticket := Admitted(|s.issued|)]),
             head.request, FromQueue)
  }

  function Refuse(s: State): State
    requires s.queue != []
  {
    s.(queue := s.queue[1..], settled := s.settled[s.queue[0].ticket := Overloaded])
  }

  /** The body of `drain` from the top of its loop until it returns or suspends at the hooks. */
  function DrainLoop(p: Policy, s: State, now: int): State
    decreases |s.queue|
  {
    if s.queue == [] || BlockedBy(p, s.active, s.queue[0].request) != [] then s.(draining := false)
    else if s.queue[0].readyAt > now then s.(timer := true, draining := false)
    else if p.hooks then s.(awaiting := Some(s.queue[0].ticket))
    else DrainLoop(p, Admit(s), now)
  }

  function Drain(p: Policy, s: State, now: int): State {
    if s.draining then s else DrainLoop(p, s.(draining := true), now)
  }

  datatype Refusal = InvalidRequest | AlreadyAborted | DuplicateId | CapacityUnavailable

  function AcquireRefusal(p: Policy, s: State, r: Request, aborted: bool): Option<Refusal> {
    if !r.Valid() then Some(InvalidRequest)
    else if aborted then Some(AlreadyAborted)
    else if Known(s, r.id) then Some(DuplicateId)
    else
      var crowded := s.queue != [] || BlockedBy(p, s.active, r) != [];
      if p.overload == Reject && crowded then Some(CapacityUnavailable)
      else if |s.queue| >= p.maxQueued && crowded then Some(CapacityUnavailable)
      else None
  }

  function Enqueue(s: State, r: Request): State {
    s.(queue := s.queue + [Pending(|s.requests|, r, 0)], requests := s.requests + [r])
  }

  function AcquireStep(p: Policy, s: State, r: Request, aborted: bool, now: int): State {
    if AcquireRefusal(p, s, r, aborted).Some? then s else Drain(p, Enqueue(s, r), now)
  }

  function AcquireExistingStep(s: State, r: Request): State {
    if !r.Valid() || Known(s, r.id) then s else Activate(s, r, Existing)
  }

  function FreePermit(s: State, serial: nat): State
    requires serial < |s.issued|
  {
    s.(released := s.released + {serial}, active := s.active - {s.issued[serial]})
  }

  function ReleaseStep(p: Policy, s: State, serial: nat, now: int): State {
    if serial >= |s.issued| || serial in s.released then s
    else Drain(p, FreePermit(s, serial), now)
  }

  function Find(q: seq<Pending>, ticket: nat): (i: nat)
    ensures i <= |q|
    ensures i < |q| ==> q[i].ticket == ticket
    ensures forall k :: 0 <= k < i ==> q[k].ticket != ticket
  {
    if q == [] || q[0].ticket == ticket then 0 else 1 + Find(q[1..], ticket)
  }

  function Cancel(s: State, ticket: nat): State
    requires Find(s.queue, ticket) < |s.queue|
  {
    var i := Find(s.queue, ticket);
    s.(queue := s.queue[..i] + s.queue[i + 1..], timer := false, settled := s.settled[ticket := Cancelled])
  }

  function AbortStep(p: Policy, s: State, ticket: nat, now: int): State {
    if Find(s.queue, ticket) == |s.queue| then s else Drain(p, Cancel(s, ticket), now)
  }

  function TimerStep(p: Policy, s: State, now: int): State {
    if !s.timer then s else Drain(p, s.(timer := false), now)
  }

  /** What the pressure hooks said; an error or a timeout of a hook is a `NotReady`. */
  datatype Decision = Ready | NotReady(retryAfterMs: int) | Interrupted

  function ResumeStep(p: Policy, s: State, decision: Decision, now: int): State {
    if s.awaiting.None? then s
    else
      var t := s.(awaiting := None);
      if t.queue == [] || t.queue[0].ticket != s.awaiting.value then DrainLoop(p, t, now)
      else
        match decision
        case Interrupted => DrainLoop(p, t, now)
        case Ready => DrainLoop(p, Admit(t), now)
        case NotReady(retry) =>
          if p.overload == Reject || p.maxQueued == 0 then DrainLoop(p, Refuse(t), now)
          else
            var delay := if retry < 1 then 1 else retry;
            t.(queue := [t.queue[0].(readyAt := now + delay)] + t.queue[1..], timer := true, draining := false)
  }

  datatype Event =
    | EvAcquire(request: Request, aborted: bool, now: int)
    | EvAcquireExisting(request: Request)
    | EvRelease(serial: nat, now: int)
    | EvAbort(ticket: nat, now: int)
    | EvTimer(now: int)
    | EvResume(decision: Decision, now: int)

  function Step(p: Policy, s: State, e: Event): State {
    match e
    case EvAcquire(r, aborted, now) => AcquireStep(p, s, r, aborted, now)
    case EvAcquireExisting(r) => AcquireExistingStep(s, r)
    case EvRelease(serial, now) => ReleaseStep(p, s, serial, now)
    case EvAbort(ticket, now) => AbortStep(p, s, ticket, now)
    case EvTimer(now) => TimerStep(p, s, now)
    case EvResume(decision, now) => ResumeStep(p, s, decision, now)
  }

  function Run(p: Policy, events: seq<Event>): State {
    if events == [] then Init else Step(p, Run(p, events[..|events| - 1]), events[|events| - 1])
  }

  // ---------------------------------------------------------------- invariants

  ghost predicate IsQueued(q: seq<Pending>, ticket: nat) {
    exists i :: 0 <= i < |q| && q[i].ticket == ticket
  }

  /** Every ticket is either waiting or settled, never both, and the queue is in arrival order. */
  ghost predicate Tickets(q: seq<Pending>, requests: seq<Request>, settled: map<nat, Outcome>) {
    && (forall i, j :: 0 <= i < j < |q| ==> q[i].ticket < q[j].ticket)
    && (forall i :: 0 <= i < |q| ==>
          q[i].ticket < |requests| && q[i].request == requests[q[i].ticket] && q[i].ticket !in settled)
    && (forall t :: t in settled ==> t < |requests|)
    && (forall t: nat :: t < |requests| && t !in settled ==> IsQueued(q, t))
  }

  /** Admissions so far happened in ticket order, each for its own request, and ahead of everyone waiting. */
  ghost predicate Ordered(q: seq<Pending>, requests: seq<Request>, settled: map<nat, Outcome>, issued: seq<string>) {
    && (forall t :: t in settled && settled[t].Admitted? ==>
          t < |requests| && settled[t].serial < |issued| && issued[settled[t].serial] == requests[t].id)
    && (forall t, u :: t in settled && u in settled && t < u && settled[t].Admitted? && settled[u].Admitted? ==>
          settled[t].serial < settled[u].serial)
    && (forall t, i :: t in settled && settled[t].Admitted? && 0 <= i < |q| ==> t < q[i].ticket)
  }

  ghost predicate DistinctIds(q: seq<Pending>, active: map<string, Permit>) {
    && (forall i, j :: 0 <= i < j < |q| ==> q[i].request.id != q[j].request.id)
    && (forall i :: 0 <= i < |q| ==> q[i].request.id !in active)
    && (forall id :: id in active ==> active[id].request.id == id)
  }

  /** A release closure is unused exactly while the permit it was made for is active. */
  ghost predicate Closures(active: map<string, Permit>, issued: seq<string>, released: set<nat>) {
    && (forall id :: id in active ==> active[id].serial < |issued| && issued[active[id].serial] == id)
    && (forall k :: k in released ==> k < |issued|)
    && (forall k: nat :: k < |issued| ==>
          (k !in released <==> issued[k] in active && active[issued[k]].serial == k))
  }

  ghost predicate Room(p: Policy, active: map<string, Permit>, r: Request) {
    forall d: Dim :: |Granted(active, d, Key(d, r.scope))| < Limit(p, d)
  }

  /** The queue-admitted permits respect every limit in every scope. */
  ghost predicate WithinLimits(p: Policy, active: map<string, Permit>) {
    forall d: Dim, v: string :: |Granted(active, d, v)| <= Limit(p, d)
  }

  /** They will still do so if the admission whose hooks are being awaited goes ahead. */
  ghost predicate Reserved(p: Policy, q: seq<Pending>, tickets: nat, active: map<string, Permit>,
                           awaiting: Option<nat>) {
    awaiting.Some? ==>
      && awaiting.value < tickets
      && (q != [] ==> awaiting.value <= q[0].ticket)
      && (q != [] && q[0].ticket == awaiting.value ==> Room(p, active, q[0].request))
  }

  function MaxDepth(p: Policy): nat {
    if p.overload == Reject || p.maxQueued == 0 then 1 else p.maxQueued
  }

  /** What holds at every point, also in the middle of a segment. */
  ghost predicate Safe(p: Policy, s: State) {
    && Tickets(s.queue, s.requests, s.settled)
    && Ordered(s.queue, s.requests, s.settled, s.issued)
    && DistinctIds(s.queue, s.active)
    && Closures(s.active, s.issued, s.released)
    && WithinLimits(p, s.active)
    && Reserved(p, s.queue, |s.requests|, s.active, s.awaiting)
    && |s.queue| <= MaxDepth(p)
  }

  ghost predicate Parked(s: State) {
    s.draining <==> s.awaiting.Some?
  }

  /** No lost wake-up: a non-empty queue is being drained, or its head is blocked, or the timer is armed. */
  ghost predicate Awake(p: Policy, s: State) {
    s.draining || s.queue == [] || s.timer || BlockedBy(p, s.active, s.queue[0].request) != []
  }

  ghost predicate Inv(p: Policy, s: State) {
    Safe(p, s) && Parked(s) && Awake(p, s)
  }

  // ---------------------------------------------------------------- preservation

  lemma GrantedInsert(active: map<string, Permit>, id: string, permit: Permit, d: Dim, v: string)
    requires id !in active
    ensures Granted(active[id := permit], d, v) ==
            Granted(active, d, v)
            + (if permit.origin.FromQueue? && Key(d, permit.request.scope) == v then {id} else {})
    ensures Members(active[id := permit], d, v) ==
            Members(active, d, v) + (if Key(d, permit.request.scope) == v then {id} else {})
  {
  }

  lemma MembersInsert(active: map<string, Permit>, id: string, permit: Permit, d: Dim, v: string)
    requires id !in active
    ensures |Members(active[id := permit], d, v)|
            == |Members(active, d, v)| + if v == Key(d, permit.request.scope) then 1 else 0
  {
    GrantedInsert(active, id, permit, d, v);
    assert id !in Members(active, d, v);
  }

  lemma GrantedRemove(active: map<string, Permit>, ids: set<string>, d: Dim, v: string)
    ensures |Granted(active - ids, d, v)| <= |Granted(active, d, v)|
  {
    SubsetCard(Granted(active - ids, d, v), Granted(active, d, v));
  }

  lemma UnblockedHasRoom(p: Policy, active: map<string, Permit>, r: Request)
    requires BlockedBy(p, active, r) == []
    ensures Room(p, active, r)
  {
    UnblockedMeansRoom(p, active, r);
    forall d: Dim ensures |Granted(active, d, Key(d, r.scope))| < Limit(p, d) {
      assert !Full(p, active, r, d);
      SubsetCard(Granted(active, d, Key(d, r.scope)), Members(active, d, Key(d, r.scope)));
    }
  }

  ghost predicate Drops(s: State, t: State, i: nat, o: Outcome) {
    && i < |s.queue|
    && t.queue == s.queue[..i] + s.queue[i + 1..]
    && t.requests == s.requests
    && t.settled == s.settled[s.queue[i].ticket := o]
  }

  /** What is left of the queue, entry by entry. */
  lemma Dropped(q: seq<Pending>, i: nat, rest: seq<Pending>)
    requires i < |q| && rest == q[..i] + q[i + 1..]
    ensures forall k :: 0 <= k < |rest| ==> rest[k] == if k < i then q[k] else q[k + 1]
  {
  }

  lemma StillQueued(q: seq<Pending>, i: nat, ticket: nat)
    requires i < |q| && q[i].ticket != ticket && IsQueued(q, ticket)
    ensures IsQueued(q[..i] + q[i + 1..], ticket)
  {
    var j :| 0 <= j < |q| && q[j].ticket == ticket;
    assert (q[..i] + q[i + 1..])[if j < i then j else j - 1].ticket == ticket;
  }

  /** Dropping queue entry `i` and settling its ticket keeps the ticket bookkeeping. */
  lemma DropTickets(s: State, t: State, i: nat, o: Outcome)
    requires Tickets(s.queue, s.requests, s.settled) && Drops(s, t, i, o)
    ensures Tickets(t.queue, t.requests, t.settled)
  {
    hide IsQueued;
    forall k: nat | k < |t.requests| && k !in t.settled
      ensures IsQueued(t.queue, k)
    {
      assert IsQueued(s.queue, k);
      StillQueued(s.queue, i, k);
    }
    Dropped(s.queue, i, t.queue);
  }

  lemma DropOrdered(s: State, t: State, i: nat, o: Outcome)
    requires Tickets(s.queue, s.requests, s.settled) && Ordered(s.queue, s.requests, s.settled, s.issued)
    requires Drops(s, t, i, o)
    requires o.Admitted? ==> i == 0 && o.serial == |s.issued| && t.issued == s.issued + [s.queue[0].request.id]
    requires !o.Admitted? ==> t.issued == s.issued
    ensures Ordered(t.queue, t.requests, t.settled, t.issued)
  {
    Dropped(s.queue, i, t.queue);
    hide IsQueued;
  }

  lemma DropIds(q: seq<Pending>, active: map<string, Permit>, i: nat, permit: Permit)
    requires DistinctIds(q, active) && i < |q| && permit.request == q[i].request
    ensures permit.request.id !in active
    ensures DistinctIds(q[..i] + q[i + 1..], active)
    ensures DistinctIds(q[..i] + q[i + 1..], active[permit.request.id := permit])
  {
  }

  lemma ActivateClosures(active: map<string, Permit>, issued: seq<string>, released: set<nat>, permit: Permit)
    requires Closures(active, issued, released)
    requires permit.request.id !in active && permit.serial == |issued|
    ensures Closures(active[permit.request.id := permit], issued + [permit.request.id], released)
  {
  }

  lemma ActivateLimits(p: Policy, active: map<string, Permit>, permit: Permit)
    requires permit.request.id !in active && WithinLimits(p, active)
    requires permit.origin.FromQueue? ==> Room(p, active, permit.request)
    ensures WithinLimits(p, active[permit.request.id := permit])
  {
    var after := active[permit.request.id := permit];
    forall d: Dim, v: string ensures |Granted(after, d, v)| <= Limit(p, d) {
      GrantedInsert(active, permit.request.id, permit, d, v);
      assert |Granted(active, d, v)| <= Limit(p, d);
    }
  }

  /** A permit for an execution that already exists takes no room from the queue-admitted ones. */
  lemma ExistingKeepsRoom(p: Policy, active: map<string, Permit>, permit: Permit, r: Request)
    requires permit.request.id !in active && permit.origin.Existing? && Room(p, active, r)
    ensures Room(p, active[permit.request.id := permit], r)
  {
    forall d: Dim ensures |Granted(active[permit.request.id := permit], d, Key(d, r.scope))| < Limit(p, d) {
      GrantedInsert(active, permit.request.id, permit, d, Key(d, r.scope));
    }
  }

  lemma AdmitSafe(p: Policy, s: State)
    requires Safe(p, s) && s.queue != [] && s.awaiting.None?
    requires Room(p, s.active, s.queue[0].request)
    ensures Safe(p, Admit(s))
  {
    hide Tickets, Ordered, DistinctIds, Closures, WithinLimits, Room;
    var t := Admit(s);
    var permit := Permit(|s.issued|, s.queue[0].request, FromQueue);
    assert Drops(s, t, 0, Admitted(|s.issued|));
    DropTickets(s, t, 0, Admitted(|s.issued|));
    DropOrdered(s, t, 0, Admitted(|s.issued|));
    DropIds(s.queue, s.active, 0, permit);
    assert t.queue == s.queue[..0] + s.queue[1..];
    ActivateClosures(s.active, s.issued, s.released, permit);
    ActivateLimits(p, s.active, permit);
  }

  lemma RefuseSafe(p: Policy, s: State)
    requires Safe(p, s) && s.queue != [] && s.awaiting.None?
    ensures Safe(p, Refuse(s))
  {
    hide Tickets, Ordered, DistinctIds, Closures, WithinLimits;
    var t := Refuse(s);
    assert Drops(s, t, 0, Overloaded);
    DropTickets(s, t, 0, Overloaded);
    DropOrdered(s, t, 0, Overloaded);
    DropIds(s.queue, s.active, 0, Permit(0, s.queue[0].request, FromQueue));
    assert t.queue == s.queue[..0] + s.queue[1..];
  }

  /** A drain run from the top of its loop keeps the safety part and leaves no wake-up behind. */
  lemma DrainLoopInv(p: Policy, s: State, now: int)
    requires Safe(p, s) && s.draining && s.awaiting.None?
    ensures Inv(p, DrainLoop(p, s, now))
    decreases |s.queue|
  {
    if s.queue != [] && BlockedBy(p, s.active, s.queue[0].request) == [] {
      UnblockedHasRoom(p, s.active, s.queue[0].request);
      if s.queue[0].readyAt <= now {
        if p.hooks {
          assert s.queue[0].ticket < |s.requests|;
        } else {
          AdmitSafe(p, s);
          DrainLoopInv(p, Admit(s), now);
        }
      }
    }
    hide Tickets, Ordered, DistinctIds, Closures, WithinLimits, BlockedBy, Room;
  }

  lemma DrainInv(p: Policy, s: State, now: int)
    requires Safe(p, s) && Parked(s)
    ensures Inv(p, Drain(p, s, now))
  {
    hide Tickets, Ordered, DistinctIds, Closures, WithinLimits, Reserved;
    if !s.draining {
      DrainLoopInv(p, s.(draining := true), now);
    }
  }

  lemma EnqueueTickets(q: seq<Pending>, requests: seq<Request>, settled: map<nat, Outcome>, r: Request)
    requires Tickets(q, requests, settled)
    ensures Tickets(q + [Pending(|requests|, r, 0)], requests + [r], settled)
  {
    var q' := q + [Pending(|requests|, r, 0)];
    forall k: nat | k <= |requests| && k !in settled ensures IsQueued(q', k) {
      if k == |requests| {
        assert q'[|q|].ticket == k;
      } else {
        assert IsQueued(q, k);
        var i :| 0 <= i < |q| && q[i].ticket == k;
        assert q'[i].ticket == k;
      }
    }
  }

  lemma EnqueueSafe(p: Policy, s: State, r: Request)
    requires Safe(p, s) && !Known(s, r.id) && |s.queue| < MaxDepth(p)
    ensures Safe(p, Enqueue(s, r))
  {
    var t := Enqueue(s, r);
    EnqueueTickets(s.queue, s.requests, s.settled, r);
    assert Ordered(t.queue, t.requests, t.settled, t.issued);
    assert DistinctIds(t.queue, t.active);
    assert s.queue != [] ==> t.queue[0] == s.queue[0];
    hide Tickets, Ordered, DistinctIds, Closures, WithinLimits, Room;
  }

  lemma AcquireInv(p: Policy, s: State, r: Request, aborted: bool, now: int)
    requires Inv(p, s)
    ensures Inv(p, AcquireStep(p, s, r, aborted, now))
  {
    hide Tickets, Ordered, DistinctIds, Closures, WithinLimits, Room, BlockedBy, Known;
    if AcquireRefusal(p, s, r, aborted).None? {
      EnqueueSafe(p, s, r);
      DrainInv(p, Enqueue(s, r), now);
    }
  }

  lemma StillBlocked(p: Policy, a: map<string, Permit>, b: map<string, Permit>, r: Request)
    requires forall d: Dim :: |Members(a, d, Key(d, r.scope))| <= |Members(b, d, Key(d, r.scope))|
    ensures BlockedBy(p, a, r) != [] ==> BlockedBy(p, b, r) != []
  {
    UnblockedMeansRoom(p, a, r);
    UnblockedMeansRoom(p, b, r);
    if BlockedBy(p, a, r) != [] {
      var d :| Full(p, a, r, d);
      assert Full(p, b, r, d);
    }
  }

  lemma ExistingSafe(p: Policy, s: State, r: Request)
    requires Safe(p, s) && !Known(s, r.id)
    ensures Safe(p, Activate(s, r, Existing))
  {
    var t := Activate(s, r, Existing);
    var permit := Permit(|s.issued|, r, Existing);
    assert Ordered(t.queue, t.requests, t.settled, t.issued);
    assert DistinctIds(t.queue, t.active);
    hide Tickets, Ordered, DistinctIds, Closures, WithinLimits, Room;
    ActivateClosures(s.active, s.issued, s.released, permit);
    ActivateLimits(p, s.active, permit);
    if s.queue != [] && Room(p, s.active, s.queue[0].request) {
      ExistingKeepsRoom(p, s.active, permit, s.queue[0].request);
    }
  }

  /** Nobody who was blocked becomes unblocked when something else becomes active. */
  lemma BlockedStaysBlocked(p: Policy, active: map<string, Permit>, permit: Permit, r: Request)
    requires permit.request.id !in active
    ensures BlockedBy(p, active, r) != [] ==> BlockedBy(p, active[permit.request.id := permit], r) != []
  {
    hide BlockedBy;
    var after := active[permit.request.id := permit];
    forall d: Dim ensures |Members(active, d, Key(d, r.scope))| <= |Members(after, d, Key(d, r.scope))| {
      MembersInsert(active, permit.request.id, permit, d, Key(d, r.scope));
    }
    StillBlocked(p, active, after, r);
  }

  lemma AcquireExistingInv(p: Policy, s: State, r: Request)
    requires Inv(p, s)
    ensures Inv(p, AcquireExistingStep(s, r))
  {
    hide Safe, BlockedBy;
    if r.Valid() && !Known(s, r.id) {
      ExistingSafe(p, s, r);
      if s.queue != [] {
        BlockedStaysBlocked(p, s.active, Permit(|s.issued|, r, Existing), s.queue[0].request);
      }
    }
  }

  lemma ReleaseSafe(p: Policy, s: State, serial: nat)
    requires Safe(p, s) && serial < |s.issued| && serial !in s.released
    ensures Safe(p, FreePermit(s, serial))
  {
    var gone := {s.issued[serial]};
    var t := FreePermit(s, serial);
    forall d: Dim, v: string ensures |Granted(t.active, d, v)| <= |Granted(s.active, d, v)| {
      GrantedRemove(s.active, gone, d, v);
    }
    assert DistinctIds(t.queue, t.active);
    assert Closures(t.active, t.issued, t.released);
    assert WithinLimits(p, t.active);
    assert Reserved(p, t.queue, |t.requests|, t.active, t.awaiting);
    hide Tickets, Ordered, DistinctIds, Closures, WithinLimits, Reserved;
  }

  lemma ReleaseInv(p: Policy, s: State, serial: nat, now: int)
    requires Inv(p, s)
    ensures Inv(p, ReleaseStep(p, s, serial, now))
  {
    hide Safe;
    if serial < |s.issued| && serial !in s.released {
      ReleaseSafe(p, s, serial);
      DrainInv(p, FreePermit(s, serial), now);
    }
  }

  /** Removing an entry leaves the awaited one at the head only if it was there before. */
  lemma DropReserved(p: Policy, s: State, i: nat)
    requires Tickets(s.queue, s.requests, s.settled) && i < |s.queue|
    requires Reserved(p, s.queue, |s.requests|, s.active, s.awaiting)
    ensures Reserved(p, s.queue[..i] + s.queue[i + 1..], |s.requests|, s.active, s.awaiting)
  {
    hide Room;
  }

  lemma AbortSafe(p: Policy, s: State, ticket: nat)
    requires Safe(p, s) && Find(s.queue, ticket) < |s.queue|
    ensures Safe(p, Cancel(s, ticket))
  {
    hide Tickets, Ordered, DistinctIds, Closures, WithinLimits, Reserved;
    var i := Find(s.queue, ticket);
    var t := Cancel(s, ticket);
    DropTickets(s, t, i, Cancelled);
    DropOrdered(s, t, i, Cancelled);
    DropIds(s.queue, s.active, i, Permit(0, s.queue[i].request, FromQueue));
    DropReserved(p, s, i);
  }

  lemma AbortInv(p: Policy, s: State, ticket: nat, now: int)
    requires Inv(p, s)
    ensures Inv(p, AbortStep(p, s, ticket, now))
  {
    hide Safe;
    if Find(s.queue, ticket) < |s.queue| {
      AbortSafe(p, s, ticket);
      DrainInv(p, Cancel(s, ticket), now);
    }
  }

  lemma SameTickets(q: seq<Pending>, q': seq<Pending>, requests: seq<Request>, settled: map<nat, Outcome>)
    requires Tickets(q, requests, settled) && |q| == |q'|
    requires forall i :: 0 <= i < |q| ==> q'[i].ticket == q[i].ticket && q'[i].request == q[i].request
    ensures Tickets(q', requests, settled)
  {
    forall k: nat | k < |requests| && k !in settled ensures IsQueued(q', k) {
      assert IsQueued(q, k);
      var i :| 0 <= i < |q| && q[i].ticket == k;
      assert q'[i].ticket == k;
    }
    hide IsQueued;
  }

  lemma PostponeSafe(p: Policy, s: State, at: int)
    requires Safe(p, s) && s.queue != [] && s.awaiting.None?
    ensures Safe(p, s.(queue := [s.queue[0].(readyAt := at)] + s.queue[1..], timer := true, draining := false))
  {
    var q := [s.queue[0].(readyAt := at)] + s.queue[1..];
    SameTickets(s.queue, q, s.requests, s.settled);
    assert Ordered(q, s.requests, s.settled, s.issued);
    assert DistinctIds(q, s.active);
    hide Tickets, Ordered, DistinctIds, Closures, WithinLimits;
  }

  lemma ResumeInv(p: Policy, s: State, decision: Decision, now: int)
    requires Inv(p, s)
    ensures Inv(p, ResumeStep(p, s, decision, now))
  {
    hide Tickets, Ordered, DistinctIds, Closures, WithinLimits, Room;
    if s.awaiting.Some? {
      var t := s.(awaiting := None);
      if t.queue == [] || t.queue[0].ticket != s.awaiting.value || decision.Interrupted? {
        DrainLoopInv(p, t, now);
      } else if decision.Ready? {
        AdmitSafe(p, t);
        DrainLoopInv(p, Admit(t), now);
      } else if p.overload == Reject || p.maxQueued == 0 {
        RefuseSafe(p, t);
        DrainLoopInv(p, Refuse(t), now);
      } else {
        PostponeSafe(p, t, now + if decision.retryAfterMs < 1 then 1 else decision.retryAfterMs);
      }
    }
  }

  lemma TimerInv(p: Policy, s: State, now: int)
    requires Inv(p, s)
    ensures Inv(p, TimerStep(p, s, now))
  {
    hide Tickets, Ordered, DistinctIds, Closures, WithinLimits, Reserved, BlockedBy;
    if s.timer { DrainInv(p, s.(timer := false), now); }
  }

  lemma StepInv(p: Policy, s: State, e: Event)
    requires Inv(p, s)
    ensures Inv(p, Step(p, s, e))
  {
    hide Inv, AcquireStep, AcquireExistingStep, ReleaseStep, AbortStep, TimerStep, ResumeStep;
    match e
    case EvAcquire(r, aborted, now) => AcquireInv(p, s, r, aborted, now);
    case EvAcquireExisting(r) => AcquireExistingInv(p, s, r);
    case EvRelease(serial, now) => ReleaseInv(p, s, serial, now);
    case EvAbort(ticket, now) => AbortInv(p, s, ticket, now);
    case EvTimer(now) => TimerInv(p, s, now);
    case EvResume(decision, now) => ResumeInv(p, s, decision, now);
  }

  lemma {:induction false} RunInv(p: Policy, events: seq<Event>)
    requires p.Valid()
    ensures Inv(p, Run(p, events))
  {
    if events == [] {
      forall d: Dim, v: string ensures |Granted(Init.active, d, v)| <= Limit(p, d) {
        assert Granted(Init.active, d, v) == {};
      }
    } else {
      RunInv(p, events[..|events| - 1]);
      StepInv(p, Run(p, events[..|events| - 1]), events[|events| - 1]);
    }
  }

  // ---------------------------------------------------------------- what holds over every run

  /** Requests admitted from the queue respect each of the five limits in each scope. */
  lemma QueueAdmissionsRespectLimits(p: Policy, events: seq<Event>, d: Dim, v: string)
    requires p.Valid()
    ensures |Granted(Run(p, events).active, d, v)| <= Limit(p, d)
  {
    RunInv(p, events);
  }

  /** The queue stays within max(1, maxQueued), and no id is waiting twice, active twice, or both. */
  lemma QueueStaysBounded(p: Policy, events: seq<Event>)
    requires p.Valid()
    ensures
      var s := Run(p, events);
      && |s.queue| <= (if p.maxQueued < 1 then 1 else p.maxQueued)
      && (forall i, j :: 0 <= i < j < |s.queue| ==> s.queue[i].request.id != s.queue[j].request.id)
      && (forall i :: 0 <= i < |s.queue| ==> s.queue[i].request.id !in s.active)
      && (forall id :: id in s.active ==> s.active[id].request.id == id)
  {
    RunInv(p, events);
  }

  /** Without permits for existing executions the bound covers everything that is active. */
  lemma TotalsRespectLimits(p: Policy, events: seq<Event>, d: Dim, v: string)
    requires p.Valid()
    requires forall e :: e in events ==> !e.EvAcquireExisting?
    ensures |Members(Run(p, events).active, d, v)| <= Limit(p, d)
  {
    RunInv(p, events);
    OnlyFromQueue(p, events);
    assert Members(Run(p, events).active, d, v) == Granted(Run(p, events).active, d, v);
  }

  ghost predicate AllFromQueue(active: map<string, Permit>) {
    forall id :: id in active ==> active[id].origin.FromQueue?
  }

  lemma DrainLoopFromQueue(p: Policy, s: State, now: int)
    requires AllFromQueue(s.active)
    ensures AllFromQueue(DrainLoop(p, s, now).active)
    decreases |s.queue|
  {
    if s.queue != [] && BlockedBy(p, s.active, s.queue[0].request) == [] && s.queue[0].readyAt <= now && !p.hooks {
      DrainLoopFromQueue(p, Admit(s), now);
    }
  }

  lemma StepFromQueue(p: Policy, s: State, e: Event)
    requires AllFromQueue(s.active) && !e.EvAcquireExisting?
    ensures AllFromQueue(Step(p, s, e).active)
  {
    forall t: State, now: int | AllFromQueue(t.active) ensures AllFromQueue(DrainLoop(p, t, now).active) {
      DrainLoopFromQueue(p, t, now);
    }
  }

  lemma {:induction false} OnlyFromQueue(p: Policy, events: seq<Event>)
    requires forall e :: e in events ==> !e.EvAcquireExisting?
    ensures AllFromQueue(Run(p, events).active)
  {
    if events != [] {
      OnlyFromQueue(p, events[..|events| - 1]);
      StepFromQueue(p, Run(p, events[..|events| - 1]), events[|events| - 1]);
    }
  }

  /** The limits can be overshot: a global limit of one, and two permits active after three segments. */
  lemma LimitCanBeOvershot()
    ensures
      var p := Policy(1, 1, 1, 1, 1, 1, Queue, true);
      var queued := Request("a", Scope("h", "p", "g", "w"));
      var existing := Request("b", Scope("h2", "p2", "g2", "w2"));
      var events := [EvAcquire(queued, false, 0), EvAcquireExisting(existing), EvResume(Ready, 0)];
      p.Valid() && |Members(Run(p, events).active, Global, "")| > Limit(p, Global)
  {
    var p := Policy(1, 1, 1, 1, 1, 1, Queue, true);
    var queued := Request("a", Scope("h", "p", "g", "w"));
    var existing := Request("b", Scope("h2", "p2", "g2", "w2"));
    var e0, e1, e2 := EvAcquire(queued, false, 0), EvAcquireExisting(existing), EvResume(Ready, 0);
    assert [e0, e1, e2][..2] == [e0, e1] && [e0, e1][..1] == [e0] && [e0][..0] == [];
    EmptyUnblocked(p, queued);
    assert Run(p, []) == Init && Init.active == map[];
    hide BlockedBy, Full, Members;
    var s1 := Run(p, [e0]);
    assert s1 == Drain(p, Enqueue(Init, queued), 0);
    var s2 := Run(p, [e0, e1]);
    assert s2 == AcquireExistingStep(s1, existing);
    assert s2.active == map["b" := Permit(0, existing, Existing)] && s2.queue == s1.queue;
    var s3 := Run(p, [e0, e1, e2]);
    assert s3 == ResumeStep(p, s2, Ready, 0);
    PairTotal(s3.active, queued.id, existing.id);
  }

  lemma EmptyUnblocked(p: Policy, r: Request)
    requires p.Valid()
    ensures BlockedBy(p, map[], r) == []
  {
    forall d: Dim ensures !Full(p, map[], r, d) {
      assert Members(map[], d, Key(d, r.scope)) == {};
    }
    UnblockedMeansRoom(p, map[], r);
  }

  lemma PairTotal(active: map<string, Permit>, a: string, b: string)
    requires a in active && b in active && a != b
    ensures |Members(active, Global, "")| >= 2
  {
    SubsetCard({a, b}, Members(active, Global, ""));
  }

  /** A waiting request never loses its wake-up, and an idle scheduler has nobody waiting. */
  lemma NobodyIsStranded(p: Policy, events: seq<Event>)
    requires p.Valid()
    ensures
      var s := Run(p, events);
      && (!s.draining && s.queue != [] ==> s.timer || exists d: Dim :: Full(p, s.active, s.queue[0].request, d))
      && (!s.draining && !s.timer && s.active == map[] ==> s.queue == [])
      && |s.queue| <= MaxDepth(p)
  {
    RunInv(p, events);
    var s := Run(p, events);
    if s.queue != [] {
      UnblockedMeansRoom(p, s.active, s.queue[0].request);
      EmptyUnblocked(p, s.queue[0].request);
    }
  }

  /**
   * First come, first served: when a later request has been admitted, every earlier one is settled, and if
   * that one was admitted too its permit is the older.
   */
  lemma NoOvertaking(p: Policy, events: seq<Event>, t: nat, u: nat)
    requires p.Valid() && t < u
    requires u in Run(p, events).settled && Run(p, events).settled[u].Admitted?
    ensures
      var s := Run(p, events);
      t in s.settled && (s.settled[t].Admitted? ==> s.settled[t].serial < s.settled[u].serial)
  {
    RunInv(p, events);
    var s := Run(p, events);
    assert t !in s.settled ==> IsQueued(s.queue, t);
  }

  /** History and the permits of others survive; only the closure of a permit ends it. */
  ghost predicate Extends(s: State, t: State, freed: set<string>) {
    && (forall k :: k in s.settled ==> k in t.settled && t.settled[k] == s.settled[k])
    && (forall id :: id in s.active && id !in freed ==> id in t.active && t.active[id] == s.active[id])
    && s.released <= t.released && s.issued <= t.issued
  }

  lemma DrainLoopExtends(p: Policy, s: State, now: int)
    requires Safe(p, s) && s.draining && s.awaiting.None?
    ensures Extends(s, DrainLoop(p, s, now), {})
    decreases |s.queue|
  {
    hide Safe, BlockedBy, Room;
    if s.queue != [] && BlockedBy(p, s.active, s.queue[0].request) == [] && s.queue[0].readyAt <= now && !p.hooks {
      UnblockedHasRoom(p, s.active, s.queue[0].request);
      AdmitSafe(p, s);
      AdmitExtends(p, s);
      DrainLoopExtends(p, Admit(s), now);
    }
  }

  lemma AdmitExtends(p: Policy, s: State)
    requires Safe(p, s) && s.queue != []
    ensures Extends(s, Admit(s), {}) && Extends(s, Refuse(s), {})
  {
  }

  lemma DrainExtends(p: Policy, s: State, now: int)
    requires Safe(p, s) && Parked(s)
    ensures Extends(s, Drain(p, s, now), {})
  {
    if !s.draining {
      var t := s.(draining := true);
      assert Safe(p, t);
      hide Safe;
      DrainLoopExtends(p, t, now);
    }
  }

  lemma ResumeExtends(p: Policy, s: State, decision: Decision, now: int)
    requires Inv(p, s)
    ensures Extends(s, ResumeStep(p, s, decision, now), {})
  {
    hide Tickets, Ordered, DistinctIds, Closures, WithinLimits, Room, BlockedBy, DrainLoop;
    if s.awaiting.Some? {
      var t := s.(awaiting := None);
      if t.queue == [] || t.queue[0].ticket != s.awaiting.value || decision.Interrupted? {
        DrainLoopExtends(p, t, now);
      } else if decision.Ready? {
        AdmitExtends(p, t);
        AdmitSafe(p, t);
        DrainLoopExtends(p, Admit(t), now);
      } else if p.overload == Reject || p.maxQueued == 0 {
        AdmitExtends(p, t);
        RefuseSafe(p, t);
        DrainLoopExtends(p, Refuse(t), now);
      }
    }
  }

  lemma AcquireExtends(p: Policy, s: State, r: Request, aborted: bool, now: int)
    requires Inv(p, s)
    ensures Extends(s, AcquireStep(p, s, r, aborted, now), {})
  {
    hide Safe, BlockedBy, Known;
    if AcquireRefusal(p, s, r, aborted).None? {
      EnqueueSafe(p, s, r);
      DrainExtends(p, Enqueue(s, r), now);
    }
  }

  lemma ExistingExtends(p: Policy, s: State, r: Request)
    requires Inv(p, s)
    ensures Extends(s, AcquireExistingStep(s, r), {})
  {
    hide Inv;
  }

  /** An unused release closure belongs to the permit that is active under its id. */
  lemma UnusedClosure(p: Policy, s: State, serial: nat)
    requires Safe(p, s) && serial < |s.issued| && serial !in s.released
    ensures s.issued[serial] in s.active && s.active[s.issued[serial]].serial == serial
  {
  }

  lemma ReleaseExtends(p: Policy, s: State, serial: nat, now: int)
    requires Inv(p, s)
    ensures Extends(s, ReleaseStep(p, s, serial, now), Freed(s, EvRelease(serial, now)))
    ensures forall id :: id in Freed(s, EvRelease(serial, now)) ==> id in s.active && s.active[id].serial == serial
  {
    hide Safe, Drain;
    if serial < |s.issued| && serial !in s.released {
      UnusedClosure(p, s, serial);
      ReleaseSafe(p, s, serial);
      DrainExtends(p, FreePermit(s, serial), now);
    }
  }

  lemma AbortExtends(p: Policy, s: State, ticket: nat, now: int)
    requires Inv(p, s)
    ensures Extends(s, AbortStep(p, s, ticket, now), {})
  {
    hide Ordered, DistinctIds, Closures, WithinLimits, Reserved, Drain, IsQueued;
    if Find(s.queue, ticket) < |s.queue| {
      assert ticket !in s.settled;
      AbortSafe(p, s, ticket);
      DrainExtends(p, Cancel(s, ticket), now);
    }
  }

  lemma TimerExtends(p: Policy, s: State, now: int)
    requires Inv(p, s)
    ensures Extends(s, TimerStep(p, s, now), {})
  {
    if s.timer {
      assert Safe(p, s.(timer := false));
      hide Safe;
      DrainExtends(p, s.(timer := false), now);
    }
  }

  /** The id whose permit an event gives back: the one its unused release closure was made for. */
  function Freed(s: State, e: Event): set<string> {
    if e.EvRelease? && e.serial < |s.issued| && e.serial !in s.released then {s.issued[e.serial]} else {}
  }

  /**
   * One segment settles nothing twice, and takes no permit away except the one whose own closure is called:
   * a repeated or late call of a closure never frees a later permit with the same id.
   */
  lemma StepExtends(p: Policy, s: State, e: Event)
    requires Inv(p, s)
    ensures Extends(s, Step(p, s, e), Freed(s, e))
    ensures forall id :: id in Freed(s, e) ==> id in s.active && s.active[id].serial == e.serial
  {
    hide Inv, AcquireStep, AcquireExistingStep, ReleaseStep, AbortStep, ResumeStep, Drain, Extends;
    match e
    case EvAcquire(r, aborted, now) => AcquireExtends(p, s, r, aborted, now);
    case EvAcquireExisting(r) => ExistingExtends(p, s, r);
    case EvRelease(serial, now) => ReleaseExtends(p, s, serial, now);
    case EvAbort(ticket, now) => AbortExtends(p, s, ticket, now);
    case EvTimer(now) => TimerExtends(p, s, now);
    case EvResume(decision, now) => ResumeExtends(p, s, decision, now);
  }

  // ---------------------------------------------------------------- totals

  /** Every scope is within its limits, whatever its permits came through. */
  ghost predicate TotalsFit(p: Policy, active: map<string, Permit>) {
    forall d: Dim, v: string :: |Members(active, d, v)| <= Limit(p, d)
  }

  /** One more permit keeps the totals exactly when its request is not blocked. */
  lemma InsertFits(p: Policy, active: map<string, Permit>, permit: Permit)
    requires TotalsFit(p, active) && permit.request.id !in active
    ensures TotalsFit(p, active[permit.request.id := permit]) <==> BlockedBy(p, active, permit.request) == []
  {
    var r, after := permit.request, active[permit.request.id := permit];
    UnblockedMeansRoom(p, active, r);
    hide BlockedBy, Members, Key, Limit;
    forall d: Dim, v: string
      ensures |Members(after, d, v)| == |Members(active, d, v)| + if v == Key(d, r.scope) then 1 else 0
    {
      MembersInsert(active, r.id, permit, d, v);
    }
    if BlockedBy(p, active, r) != [] {
      var d :| Full(p, active, r, d);
      assert |Members(after, d, Key(d, r.scope))| > Limit(p, d);
    } else {
      forall d: Dim, v: string ensures |Members(after, d, v)| <= Limit(p, d) {
        assert |Members(active, d, v)| <= Limit(p, d);
        assert v == Key(d, r.scope) ==> !Full(p, active, r, d);
      }
    }
  }

  lemma DrainLoopFits(p: Policy, s: State, now: int)
    requires Safe(p, s) && s.draining && s.awaiting.None? && TotalsFit(p, s.active)
    ensures TotalsFit(p, DrainLoop(p, s, now).active)
    decreases |s.queue|
  {
    hide Safe, BlockedBy, Room, TotalsFit;
    if s.queue != [] && BlockedBy(p, s.active, s.queue[0].request) == [] && s.queue[0].readyAt <= now && !p.hooks {
      UnblockedHasRoom(p, s.active, s.queue[0].request);
      AdmitFits(p, s);
      AdmitSafe(p, s);
      DrainLoopFits(p, Admit(s), now);
    }
  }

  lemma AdmitFits(p: Policy, s: State)
    requires Safe(p, s) && s.queue != [] && TotalsFit(p, s.active)
    ensures TotalsFit(p, Admit(s).active) <==> BlockedBy(p, s.active, s.queue[0].request) == []
  {
    assert s.queue[0].request.id !in s.active;
    hide Safe, TotalsFit, BlockedBy;
    InsertFits(p, s.active, Permit(|s.issued|, s.queue[0].request, FromQueue));
  }

  lemma DrainFits(p: Policy, s: State, now: int)
    requires Safe(p, s) && Parked(s) && TotalsFit(p, s.active)
    ensures TotalsFit(p, Drain(p, s, now).active)
  {
    if !s.draining {
      var t := s.(draining := true);
      assert Safe(p, t);
      hide Safe, TotalsFit;
      DrainLoopFits(p, t, now);
    }
  }

  lemma FewerFit(p: Policy, a: map<string, Permit>, b: map<string, Permit>)
    requires TotalsFit(p, b) && forall id :: id in a ==> id in b && b[id] == a[id]
    ensures TotalsFit(p, a)
  {
    forall d: Dim, v: string ensures |Members(a, d, v)| <= Limit(p, d) {
      SubsetCard(Members(a, d, v), Members(b, d, v));
      assert |Members(b, d, v)| <= Limit(p, d);
    }
  }

  /** What a drain started from totals that do not fit, it does not repair. */
  lemma DrainLoopOverfull(p: Policy, s: State, now: int)
    requires Safe(p, s) && s.draining && s.awaiting.None? && !TotalsFit(p, s.active)
    ensures !TotalsFit(p, DrainLoop(p, s, now).active)
  {
    hide Safe, TotalsFit;
    DrainLoopExtends(p, s, now);
    if TotalsFit(p, DrainLoop(p, s, now).active) { FewerFit(p, s.active, DrainLoop(p, s, now).active); }
  }

  /**
   * The two ways past the limits: a permit for an execution that exists is taken on a full scope, and the
   * awaited head, which `drain` does not check again after its hooks, has become blocked.
   */
  predicate Overshoots(p: Policy, s: State, e: Event) {
    match e
    case EvAcquireExisting(r) => r.Valid() && !Known(s, r.id) && BlockedBy(p, s.active, r) != []
    case EvResume(decision, _) =>
      && decision.Ready? && s.awaiting.Some? && s.queue != [] && s.queue[0].ticket == s.awaiting.value
      && BlockedBy(p, s.active, s.queue[0].request) != []
    case _ => false
  }

  lemma ResumeTotals(p: Policy, s: State, decision: Decision, now: int)
    requires Inv(p, s) && TotalsFit(p, s.active)
    ensures TotalsFit(p, ResumeStep(p, s, decision, now).active) <==> !Overshoots(p, s, EvResume(decision, now))
  {
    hide Tickets, Ordered, DistinctIds, Closures, WithinLimits, Room, BlockedBy, DrainLoop, TotalsFit;
    if s.awaiting.Some? {
      var t := s.(awaiting := None);
      if t.queue == [] || t.queue[0].ticket != s.awaiting.value || decision.Interrupted? {
        DrainLoopFits(p, t, now);
      } else if decision.Ready? {
        AdmitFits(p, t);
        AdmitSafe(p, t);
        if TotalsFit(p, Admit(t).active) { DrainLoopFits(p, Admit(t), now); } else { DrainLoopOverfull(p, Admit(t), now); }
      } else if p.overload == Reject || p.maxQueued == 0 {
        RefuseSafe(p, t);
        DrainLoopFits(p, Refuse(t), now);
      }
    }
  }

  lemma ExistingTotals(p: Policy, s: State, r: Request)
    requires TotalsFit(p, s.active)
    ensures TotalsFit(p, AcquireExistingStep(s, r).active) <==> !Overshoots(p, s, EvAcquireExisting(r))
  {
    hide TotalsFit, BlockedBy;
    if r.Valid() && !Known(s, r.id) { InsertFits(p, s.active, Permit(|s.issued|, r, Existing)); }
  }

  lemma AcquireTotals(p: Policy, s: State, r: Request, aborted: bool, now: int)
    requires Inv(p, s) && TotalsFit(p, s.active)
    ensures TotalsFit(p, AcquireStep(p, s, r, aborted, now).active)
  {
    hide Safe, BlockedBy, Known, TotalsFit, Drain;
    if AcquireRefusal(p, s, r, aborted).None? {
      EnqueueSafe(p, s, r);
      DrainFits(p, Enqueue(s, r), now);
    }
  }

  lemma ReleaseTotals(p: Policy, s: State, serial: nat, now: int)
    requires Inv(p, s) && TotalsFit(p, s.active)
    ensures TotalsFit(p, ReleaseStep(p, s, serial, now).active)
  {
    hide Safe, TotalsFit, Drain;
    if serial < |s.issued| && serial !in s.released {
      ReleaseSafe(p, s, serial);
      FewerFit(p, FreePermit(s, serial).active, s.active);
      DrainFits(p, FreePermit(s, serial), now);
    }
  }

  lemma AbortTotals(p: Policy, s: State, ticket: nat, now: int)
    requires Inv(p, s) && TotalsFit(p, s.active)
    ensures TotalsFit(p, AbortStep(p, s, ticket, now).active)
  {
    hide Safe, TotalsFit, Drain;
    if Find(s.queue, ticket) < |s.queue| {
      AbortSafe(p, s, ticket);
      DrainFits(p, Cancel(s, ticket), now);
    }
  }

  lemma TimerTotals(p: Policy, s: State, now: int)
    requires Inv(p, s) && TotalsFit(p, s.active)
    ensures TotalsFit(p, TimerStep(p, s, now).active)
  {
    if s.timer {
      assert Safe(p, s.(timer := false));
      hide Safe, TotalsFit, Drain;
      DrainFits(p, s.(timer := false), now);
    }
  }

  /** From totals within every limit, a segment goes past one exactly when it is one of the two. */
  lemma TotalsExactly(p: Policy, s: State, e: Event)
    requires Inv(p, s) && TotalsFit(p, s.active)
    ensures TotalsFit(p, Step(p, s, e).active) <==> !Overshoots(p, s, e)
  {
    hide Inv, TotalsFit, AcquireStep, AcquireExistingStep, ReleaseStep, AbortStep, TimerStep, ResumeStep;
    match e
    case EvAcquire(r, aborted, now) => AcquireTotals(p, s, r, aborted, now);
    case EvAcquireExisting(r) => ExistingTotals(p, s, r);
    case EvRelease(serial, now) => ReleaseTotals(p, s, serial, now);
    case EvAbort(ticket, now) => AbortTotals(p, s, ticket, now);
    case EvTimer(now) => TimerTotals(p, s, now);
    case EvResume(decision, now) => ResumeTotals(p, s, decision, now);
  }

  ghost predicate AlwaysFits(p: Policy, events: seq<Event>) {
    forall i :: 0 <= i <= |events| ==> TotalsFit(p, Run(p, events[..i]).active)
  }

  ghost predicate NeverOvershoots(p: Policy, events: seq<Event>) {
    forall i :: 0 <= i < |events| ==> !Overshoots(p, Run(p, events[..i]), events[i])
  }

  lemma RunExtended(p: Policy, events: seq<Event>, e: Event)
    ensures Run(p, events + [e]) == Step(p, Run(p, events), e)
  {
    assert (events + [e])[..|events|] == events;
  }

  lemma LastFits(p: Policy, events: seq<Event>, e: Event)
    ensures AlwaysFits(p, events + [e]) <==> AlwaysFits(p, events) && TotalsFit(p, Run(p, events + [e]).active)
    ensures AlwaysFits(p, events) ==> TotalsFit(p, Run(p, events).active)
  {
    hide Run, TotalsFit;
    var all := events + [e];
    assert all[..|all|] == all && events[..|events|] == events;
    if AlwaysFits(p, all) {
      forall i | 0 <= i <= |events| ensures TotalsFit(p, Run(p, events[..i]).active) { assert all[..i] == events[..i]; }
    }
    if AlwaysFits(p, events) && TotalsFit(p, Run(p, all).active) {
      forall i | 0 <= i <= |all| ensures TotalsFit(p, Run(p, all[..i]).active) {
        if i <= |events| { assert all[..i] == events[..i]; }
      }
    }
  }

  lemma LastOvershoots(p: Policy, events: seq<Event>, e: Event)
    ensures NeverOvershoots(p, events + [e]) <==> NeverOvershoots(p, events) && !Overshoots(p, Run(p, events), e)
  {
    hide Run, Overshoots;
    var all := events + [e];
    assert all[..|events|] == events && all[|events|] == e;
    if NeverOvershoots(p, all) {
      forall i | 0 <= i < |events| ensures !Overshoots(p, Run(p, events[..i]), events[i]) {
        assert all[..i] == events[..i] && all[i] == events[i];
      }
    }
    if NeverOvershoots(p, events) && !Overshoots(p, Run(p, events), e) {
      forall i | 0 <= i < |all| ensures !Overshoots(p, Run(p, all[..i]), all[i]) {
        if i < |events| { assert all[..i] == events[..i] && all[i] == events[i]; }
      }
    }
  }

  /** A history stays within every limit throughout exactly when it has no such segment. */
  lemma {:induction false} RunTotalsExactly(p: Policy, events: seq<Event>)
    requires p.Valid()
    ensures (forall i :: 0 <= i <= |events| ==> TotalsFit(p, Run(p, events[..i]).active))
            <==> (forall i :: 0 <= i < |events| ==> !Overshoots(p, Run(p, events[..i]), events[i]))
  {
    TotalsExactlyOnRuns(p, events);
  }

  lemma {:induction false} TotalsExactlyOnRuns(p: Policy, events: seq<Event>)
    requires p.Valid()
    ensures AlwaysFits(p, events) <==> NeverOvershoots(p, events)
  {
    hide AlwaysFits, NeverOvershoots;
    if events == [] {
      NothingFits(p);
    } else {
      var before, e := events[..|events| - 1], events[|events| - 1];
      TotalsExactlyOnRuns(p, before);
      LastSegment(p, before, e);
      assert before + [e] == events;
    }
  }

  lemma LastSegment(p: Policy, events: seq<Event>, e: Event)
    requires p.Valid() && (AlwaysFits(p, events) <==> NeverOvershoots(p, events))
    ensures AlwaysFits(p, events + [e]) <==> NeverOvershoots(p, events + [e])
  {
    hide Inv, TotalsFit, Overshoots, Step, Run, AlwaysFits, NeverOvershoots;
    RunInv(p, events);
    RunExtended(p, events, e);
    LastFits(p, events, e);
    LastOvershoots(p, events, e);
    if TotalsFit(p, Run(p, events).active) { TotalsExactly(p, Run(p, events), e); }
  }

  lemma NothingFits(p: Policy)
    ensures TotalsFit(p, Run(p, []).active) && AlwaysFits(p, []) && NeverOvershoots(p, [])
  {
    var none: seq<Event> := [];
    assert none[..0] == none;
    forall d: Dim, v: string ensures |Members(Init.active, d, v)| <= Limit(p, d) {
      assert Members(Init.active, d, v) == {};
    }
  }

  /** Over a whole run, what an `acquire` settled to never changes and nothing settled is forgotten. */
  lemma {:induction false} SettlesOnce(p: Policy, events: seq<Event>, n: nat, ticket: nat)
    requires p.Valid() && n <= |events|
    requires ticket in Run(p, events[..n]).settled
    ensures ticket in Run(p, events).settled
    ensures Run(p, events).settled[ticket] == Run(p, events[..n]).settled[ticket]
  {
    if n == |events| {
      assert events[..n] == events;
    } else {
      var before := events[..|events| - 1];
      assert before[..n] == events[..n];
      SettlesOnce(p, before, n, ticket);
      RunInv(p, before);
      StepExtends(p, Run(p, before), events[|events| - 1]);
      hide Inv;
    }
  }

  // ---------------------------------------------------------------- what each segment does

  /** Where a drain leaves the queue: empty, blocked, put off with the timer armed, or waiting for its hooks. */
  ghost predicate Stops(p: Policy, t: State, now: int) {
    if t.queue == [] || (exists d: Dim :: Full(p, t.active, t.queue[0].request, d)) then !t.draining && t.awaiting.None?
    else if t.queue[0].readyAt > now then t.timer && !t.draining && t.awaiting.None?
    else p.hooks && t.draining && t.awaiting == Some(t.queue[0].ticket)
  }

  /** `pending` was admitted with this closure. */
  ghost predicate IsAdmitted(t: State, pending: Pending, serial: nat) {
    && pending.ticket in t.settled && t.settled[pending.ticket] == Admitted(serial)
    && pending.request.id in t.active && t.active[pending.request.id] == Permit(serial, pending.request, FromQueue)
  }

  ghost predicate InFirst(q: seq<Pending>, n: nat, ticket: nat) {
    exists i :: 0 <= i < n <= |q| && q[i].ticket == ticket
  }

  ghost predicate IdInFirst(q: seq<Pending>, n: nat, id: string) {
    exists i :: 0 <= i < n <= |q| && q[i].request.id == id
  }

  /** The first `n` of the queue have been admitted, in order, and nothing else has happened to anybody. */
  ghost predicate AdmitsFirst(p: Policy, s: State, t: State, n: nat, now: int) {
    && n <= |s.queue| && t.queue == s.queue[n..] && (p.hooks ==> n == 0)
    && (forall i :: 0 <= i < n ==> s.queue[i].readyAt <= now && IsAdmitted(t, s.queue[i], |s.issued| + i))
    && (forall k :: k in t.settled ==> k in s.settled || InFirst(s.queue, n, k))
    && (forall id :: id in t.active ==> id in s.active || IdInFirst(s.queue, n, id))
    && |t.issued| == |s.issued| + n && t.requests == s.requests && t.released == s.released
    && (t.timer && !s.timer ==> t.queue != [] && t.queue[0].readyAt > now)
  }

  lemma NobodyAdmitted(p: Policy, s: State, t: State, now: int)
    requires t == s.(timer := t.timer, draining := t.draining, awaiting := t.awaiting)
    requires t.timer && !s.timer ==> t.queue != [] && t.queue[0].readyAt > now
    ensures AdmitsFirst(p, s, t, 0, now)
  {
  }

  lemma FirstShifts(q: seq<Pending>, n: nat, k: nat, id: string)
    requires n < |q|
    ensures q[0].ticket == k || InFirst(q[1..], n, k) ==> InFirst(q, n + 1, k)
    ensures q[0].request.id == id || IdInFirst(q[1..], n, id) ==> IdInFirst(q, n + 1, id)
  {
    if InFirst(q[1..], n, k) {
      var i :| 0 <= i < n <= |q[1..]| && q[1..][i].ticket == k;
      assert q[i + 1].ticket == k;
    }
    if IdInFirst(q[1..], n, id) {
      var i :| 0 <= i < n <= |q[1..]| && q[1..][i].request.id == id;
      assert q[i + 1].request.id == id;
    }
  }

  lemma StaysAdmitted(a: State, t: State, pending: Pending, serial: nat)
    requires IsAdmitted(a, pending, serial) && Extends(a, t, {})
    ensures IsAdmitted(t, pending, serial)
  {
  }

  lemma HeadAdmittedToo(p: Policy, s: State, t: State, n: nat, now: int)
    requires s.queue != [] && s.queue[0].readyAt <= now && !p.hooks
    requires AdmitsFirst(p, Admit(s), t, n, now) && Extends(Admit(s), t, {})
    ensures AdmitsFirst(p, s, t, n + 1, now)
  {
    hide Extends, InFirst, IdInFirst, IsAdmitted;
    var a := Admit(s);
    assert IsAdmitted(a, s.queue[0], |s.issued|) by { HeadAdmitted(s); }
    StaysAdmitted(a, t, s.queue[0], |s.issued|);
    assert a.queue == s.queue[1..] && a.queue[n..] == s.queue[n + 1..];
    forall i | 0 <= i < n + 1 ensures s.queue[i].readyAt <= now && IsAdmitted(t, s.queue[i], |s.issued| + i) {
      if i > 0 { assert s.queue[i] == a.queue[i - 1]; }
    }
    forall k | k in t.settled && k !in s.settled ensures InFirst(s.queue, n + 1, k) { FirstShifts(s.queue, n, k, ""); }
    forall id | id in t.active && id !in s.active ensures IdInFirst(s.queue, n + 1, id) { FirstShifts(s.queue, n, 0, id); }
  }

  lemma HeadAdmitted(s: State)
    requires s.queue != []
    ensures IsAdmitted(Admit(s), s.queue[0], |s.issued|)
  {
  }

  /** A drain admits from the front as long as it may, and stops only for a reason. */
  lemma {:induction false} DrainLoopMeans(p: Policy, s: State, now: int) returns (n: nat)
    requires Safe(p, s) && s.draining && s.awaiting.None?
    ensures AdmitsFirst(p, s, DrainLoop(p, s, now), n, now) && Stops(p, DrainLoop(p, s, now), now)
    ensures s.queue != [] && (forall d: Dim :: !Full(p, s.active, s.queue[0].request, d)) && s.queue[0].readyAt <= now && !p.hooks ==>
              n > 0
    decreases |s.queue|
  {
    hide Safe, AdmitsFirst, Full, BlockedBy, Room, Extends;
    n := 0;
    if s.queue == [] {
      NobodyAdmitted(p, s, s.(draining := false), now);
    } else {
      UnblockedMeansRoom(p, s.active, s.queue[0].request);
      if BlockedBy(p, s.active, s.queue[0].request) != [] {
        NobodyAdmitted(p, s, s.(draining := false), now);
      } else if s.queue[0].readyAt > now {
        NobodyAdmitted(p, s, s.(timer := true, draining := false), now);
      } else if p.hooks {
        NobodyAdmitted(p, s, s.(awaiting := Some(s.queue[0].ticket)), now);
      } else {
        UnblockedHasRoom(p, s.active, s.queue[0].request);
        AdmitSafe(p, s);
        DrainLoopExtends(p, Admit(s), now);
        n := DrainLoopMeans(p, Admit(s), now);
        HeadAdmittedToo(p, s, DrainLoop(p, Admit(s), now), n, now);
        n := n + 1;
      }
    }
  }

  lemma DrainMeans(p: Policy, s: State, now: int) returns (n: nat)
    requires Safe(p, s) && !s.draining && s.awaiting.None?
    ensures AdmitsFirst(p, s, Drain(p, s, now), n, now) && Stops(p, Drain(p, s, now), now)
    ensures s.queue != [] && (forall d: Dim :: !Full(p, s.active, s.queue[0].request, d)) && s.queue[0].readyAt <= now && !p.hooks ==>
              n > 0
  {
    var a := s.(draining := true);
    assert Safe(p, a);
    hide Safe, Full, DrainLoop, Stops, Extends, AdmitsFirst;
    n := DrainLoopMeans(p, a, now);
    DrainFlagAside(p, s, DrainLoop(p, a, now), n, now);
  }

  lemma DrainFlagAside(p: Policy, s: State, t: State, n: nat, now: int)
    requires AdmitsFirst(p, s.(draining := true), t, n, now)
    ensures AdmitsFirst(p, s, t, n, now)
  {
    hide InFirst, IdInFirst, IsAdmitted;
  }

  /** With hooks installed a drain admits nobody: it waits for what they say of the head. */
  lemma HeadAwaited(p: Policy, s: State, now: int)
    requires !s.draining && s.queue != [] && s.queue[0].readyAt <= now && p.hooks
    requires forall d: Dim :: !Full(p, s.active, s.queue[0].request, d)
    ensures Drain(p, s, now) == s.(draining := true, awaiting := Some(s.queue[0].ticket))
  {
    UnblockedMeansRoom(p, s.active, s.queue[0].request);
    hide BlockedBy, Full;
  }

  /**
   * A call of a release closure: it is used up, no active permit has its number, all others stay, and unless a
   * drain is under way already the queue is drained.  A second call does nothing.
   */
  lemma ReleaseMeans(p: Policy, s: State, k: nat, now: int)
    requires Inv(p, s) && k < |s.issued|
    ensures
      var t := Step(p, s, EvRelease(k, now));
      && t.released == s.released + {k}
      && (forall id :: id in t.active ==> t.active[id].serial != k)
      && (forall id :: id in s.active && s.active[id].serial != k ==> id in t.active && t.active[id] == s.active[id])
      && (k in s.released ==> t == s)
      && (k !in s.released && s.draining ==> t.queue == s.queue && t.active.Keys == s.active.Keys - {s.issued[k]})
      && (k !in s.released && !s.draining ==> Stops(p, t, now))
  {
    hide Tickets, Ordered, WithinLimits, Reserved, Room, BlockedBy, DrainLoop, Full, Stops, InFirst, IdInFirst, IsAdmitted;
    ReleaseInv(p, s, k, now);
    if k !in s.released {
      UnusedClosure(p, s, k);
      ReleaseSafe(p, s, k);
      var a := FreePermit(s, k);
      if !s.draining {
        var n := DrainMeans(p, a, now);
        DrainExtends(p, a, now);
      }
    }
  }

  /** Nothing stands in the way of the head once the permit of this closure is gone. */
  ghost predicate MakesRoom(p: Policy, s: State, k: nat, now: int) {
    && k < |s.issued| && k !in s.released && !s.draining && s.queue != [] && s.queue[0].readyAt <= now
    && forall d: Dim :: |Members(s.active - {s.issued[k]}, d, Key(d, s.queue[0].request.scope))| < Limit(p, d)
  }

  /** The head of the queue is admitted into the room a release makes, or its hooks are asked. */
  lemma ReleaseAdmitsHead(p: Policy, s: State, k: nat, now: int)
    requires Inv(p, s) && MakesRoom(p, s, k, now)
    ensures
      var t := Step(p, s, EvRelease(k, now));
      if p.hooks then t.queue == s.queue && t.awaiting == Some(s.queue[0].ticket)
      else IsAdmitted(t, s.queue[0], |s.issued|)
  {
    hide Tickets, Ordered, WithinLimits, Reserved, Room, BlockedBy, DrainLoop, InFirst, IdInFirst, IsAdmitted;
    ReleaseSafe(p, s, k);
    var a := FreePermit(s, k);
    assert forall d: Dim :: !Full(p, a.active, a.queue[0].request, d);
    if p.hooks { HeadAwaited(p, a, now); } else { var n := DrainMeans(p, a, now); }
  }

  /** Both together, as the method promises them. */
  ghost predicate Released(p: Policy, s: State, t: State, k: nat, now: int) {
    && t.released == s.released + {k}
    && (forall id :: id in t.active ==> t.active[id].serial != k)
    && (forall id :: id in s.active && s.active[id].serial != k ==> id in t.active && t.active[id] == s.active[id])
    && (k in s.released ==> t == s)
    && (k !in s.released && !s.draining ==> Stops(p, t, now))
    && (MakesRoom(p, s, k, now) && !p.hooks ==> IsAdmitted(t, s.queue[0], |s.issued|))
    && (MakesRoom(p, s, k, now) && p.hooks ==> t.awaiting == Some(s.queue[0].ticket))
  }

  lemma ReleaseDoes(p: Policy, s: State, k: nat, now: int)
    requires Inv(p, s) && k < |s.issued|
    ensures Released(p, s, ReleaseStep(p, s, k, now), k, now)
  {
    hide Inv, Stops, MakesRoom, IsAdmitted, ReleaseStep;
    ReleaseMeans(p, s, k, now);
    RoomHasHead(p, s, k, now);
    if MakesRoom(p, s, k, now) { ReleaseAdmitsHead(p, s, k, now); }
  }

  lemma RoomHasHead(p: Policy, s: State, k: nat, now: int)
    ensures MakesRoom(p, s, k, now) ==> s.queue != []
  {
  }

  /** Everybody holds a different limit against a request, or the queue is not empty. */
  ghost predicate Crowded(p: Policy, s: State, r: Request) {
    s.queue != [] || exists d: Dim :: |Members(s.active, d, Key(d, r.scope))| >= Limit(p, d)
  }

  ghost predicate TakenId(s: State, id: string) {
    id in s.active || exists i :: 0 <= i < |s.queue| && s.queue[i].request.id == id
  }

  /**
   * Why a request is refused at once: it is malformed, its signal has fired, its id is in use, or, when it cannot
   * go ahead now, the policy rejects or its queue is full.
   */
  lemma RefusalMeans(p: Policy, s: State, r: Request, aborted: bool)
    ensures
      var why := AcquireRefusal(p, s, r, aborted);
      && (why == Some(InvalidRequest) <==>
            r.id == "" || r.scope.host == "" || r.scope.project == "" || r.scope.agent == "" || r.scope.workspace == "")
      && (why == Some(AlreadyAborted) ==> aborted) && (aborted ==> why.Some?)
      && (why == Some(DuplicateId) ==> TakenId(s, r.id)) && (TakenId(s, r.id) ==> why.Some?)
      && (why == Some(DuplicateId) || why == Some(CapacityUnavailable) || why.None? ==> !aborted)
      && (why == Some(CapacityUnavailable) || why.None? ==> !TakenId(s, r.id))
      && (why == Some(CapacityUnavailable) ==> Crowded(p, s, r) && (p.overload.Reject? || |s.queue| >= p.maxQueued))
      && (why.None? && Crowded(p, s, r) ==> p.overload.Queue? && |s.queue| < p.maxQueued)
  {
    UnblockedMeansRoom(p, s.active, r);
    hide BlockedBy, Members;
    assert forall d: Dim :: Full(p, s.active, r, d) <==> |Members(s.active, d, Key(d, r.scope))| >= Limit(p, d);
  }

  /** A request that is not refused is queued, and admitted in the same segment if it can go ahead now. */
  lemma AcquireMeans(p: Policy, s: State, r: Request, aborted: bool, now: int)
    requires Inv(p, s)
    ensures
      var t := Step(p, s, EvAcquire(r, aborted, now));
      if AcquireRefusal(p, s, r, aborted).Some? then t == s
      else
        && t.requests == s.requests + [r]
        && (IsQueued(t.queue, |s.requests|) || (|s.requests| in t.settled && t.settled[|s.requests|].Admitted?))
        && (s.draining ==> t.queue == s.queue + [Pending(|s.requests|, r, 0)] && t.active == s.active)
        && (!s.draining ==> Stops(p, t, now))
        && (!s.draining && !Crowded(p, s, r) && !p.hooks && now >= 0 ==> IsAdmitted(t, Pending(|s.requests|, r, 0), |s.issued|))
  {
    hide Tickets, Ordered, WithinLimits, Reserved, Room, BlockedBy, DrainLoop, InFirst, IdInFirst, IsAdmitted, AcquireRefusal,
         Stops, DistinctIds, Closures;
    if AcquireRefusal(p, s, r, aborted).None? {
      RefusalMeans(p, s, r, aborted);
      var e := Enqueue(s, r);
      NotRefused(p, s, r, aborted);
      EnqueueSafe(p, s, r);
      AcquireInv(p, s, r, aborted, now);
      var t := Step(p, s, EvAcquire(r, aborted, now));
      assert e.queue[|s.queue|].ticket == |s.requests|;
      if !s.draining {
        var n := DrainMeans(p, e, now);
        if !Crowded(p, s, r) {
          assert forall d: Dim :: !Full(p, e.active, e.queue[0].request, d);
          assert !p.hooks && now >= 0 ==> n == 1;
        }
        Shifted(e.queue, t.queue, n, |s.queue|);
        if n > |s.queue| { AdmittedIsSettled(t, e.queue[|s.queue|], |e.issued| + |s.queue|); }
      }
    }
  }

  lemma AdmittedIsSettled(t: State, pending: Pending, serial: nat)
    requires IsAdmitted(t, pending, serial)
    ensures pending.ticket in t.settled && t.settled[pending.ticket].Admitted?
  {
  }

  lemma Shifted(q: seq<Pending>, rest: seq<Pending>, n: nat, i: nat)
    requires i < |q| && n <= |q| && rest == q[n..]
    ensures n <= i ==> IsQueued(rest, q[i].ticket)
  {
    if n <= i { assert rest[i - n] == q[i]; }
  }

  lemma NotRefused(p: Policy, s: State, r: Request, aborted: bool)
    requires Inv(p, s) && AcquireRefusal(p, s, r, aborted).None?
    ensures !Known(s, r.id) && |s.queue| < MaxDepth(p)
  {
    hide Tickets, Ordered, DistinctIds, Closures, WithinLimits, Room, BlockedBy, Known;
  }

  /** A permit for an execution that exists is taken whatever the limits say, unless the id is in use. */
  lemma AcquireExistingMeans(p: Policy, s: State, r: Request)
    ensures
      var t := Step(p, s, EvAcquireExisting(r));
      if !r.Valid() || TakenId(s, r.id) then t == s
      else
        && r.id in t.active && t.active[r.id] == Permit(|s.issued|, r, Existing)
        && (forall id :: id != r.id ==> (id in t.active <==> id in s.active))
        && (forall id :: id != r.id && id in s.active ==> t.active[id] == s.active[id])
        && t.issued == s.issued + [r.id] && t.queue == s.queue && t.settled == s.settled && t.released == s.released
  {
  }

  /** An aborted request leaves the queue cancelled; nobody else leaves it, except by being admitted. */
  lemma AbortMeans(p: Policy, s: State, ticket: nat, now: int)
    requires Inv(p, s)
    ensures
      var t := Step(p, s, EvAbort(ticket, now));
      if !IsQueued(s.queue, ticket) then t == s
      else
        && ticket in t.settled && t.settled[ticket] == Cancelled && !IsQueued(t.queue, ticket)
        && (forall k :: k in t.settled && k !in s.settled && k != ticket ==> t.settled[k].Admitted?)
        && (!s.draining ==> Stops(p, t, now))
        && (s.draining ==> t.active == s.active && |t.queue| == |s.queue| - 1)
  {
    hide Safe, DrainLoop, InFirst, IdInFirst, IsAdmitted, Stops, IsQueued, AdmitsFirst;
    FindQueued(s.queue, ticket);
    if Find(s.queue, ticket) < |s.queue| {
      var a, t := Cancel(s, ticket), Step(p, s, EvAbort(ticket, now));
      AbortInv(p, s, ticket, now);
      AbortSafe(p, s, ticket);
      NotQueuedTwice(p, a, ticket);
      if !s.draining {
        var n := DrainMeans(p, a, now);
        PrefixAdmitted(p, a, t, n, now);
      }
      DrainExtends(p, a, now);
      NotQueuedTwice(p, t, ticket);
    }
  }

  lemma FindQueued(q: seq<Pending>, ticket: nat)
    ensures Find(q, ticket) < |q| <==> IsQueued(q, ticket)
  {
  }

  lemma NotQueuedTwice(p: Policy, s: State, ticket: nat)
    requires Safe(p, s) && ticket in s.settled
    ensures !IsQueued(s.queue, ticket)
  {
    hide Ordered, DistinctIds, Closures, WithinLimits, Reserved;
  }

  lemma PrefixAdmitted(p: Policy, s: State, t: State, n: nat, now: int)
    requires AdmitsFirst(p, s, t, n, now)
    ensures forall k :: k in t.settled && k !in s.settled ==> t.settled[k].Admitted?
  {
    hide IdInFirst, IsAdmitted;
    forall k | k in t.settled && k !in s.settled ensures t.settled[k].Admitted? {
      var i :| 0 <= i < n <= |s.queue| && s.queue[i].ticket == k;
      AdmittedIsSettled(t, s.queue[i], |s.issued| + i);
    }
  }

  /** The wake timer drains the queue, if nobody is doing so already. */
  lemma TimerMeans(p: Policy, s: State, now: int)
    requires Inv(p, s) && s.timer
    ensures
      var t := Step(p, s, EvTimer(now));
      && (s.draining ==> t == s.(timer := false))
      && (!s.draining ==> Stops(p, t, now) && (t.timer ==> t.queue != [] && t.queue[0].readyAt > now))
  {
    hide Tickets, Ordered, DistinctIds, Closures, WithinLimits, Reserved, Room, BlockedBy, DrainLoop, InFirst, IdInFirst,
         IsAdmitted, Stops;
    if !s.draining {
      assert Safe(p, s.(timer := false));
      var n := DrainMeans(p, s.(timer := false), now);
    }
  }

  /** The hooks have answered for the request that is still the head. */
  ghost predicate StillAwaited(s: State) {
    s.awaiting.Some? && s.queue != [] && s.queue[0].ticket == s.awaiting.value
  }

  /**
   * The answer of the hooks: a ready head is admitted; one that is not is refused if the policy rejects or has no
   * queue, and otherwise stays the head and is put off by the delay, of at least one, with the timer armed.  In
   * every other case the queue is drained.
   */
  lemma ResumeMeans(p: Policy, s: State, decision: Decision, now: int)
    requires Inv(p, s) && s.awaiting.Some?
    ensures
      var t := Step(p, s, EvResume(decision, now));
      && (StillAwaited(s) && decision.Ready? ==> IsAdmitted(t, s.queue[0], |s.issued|))
      && (StillAwaited(s) && decision.NotReady? && (p.overload.Reject? || p.maxQueued == 0) ==>
            && s.queue[0].ticket in t.settled && t.settled[s.queue[0].ticket] == Overloaded)
      && (StillAwaited(s) && decision.NotReady? && p.overload.Queue? && p.maxQueued > 0 ==>
            && |t.queue| == |s.queue| && t.queue[1..] == s.queue[1..] && t.timer && !t.draining && t.awaiting.None?
            && t.queue[0].ticket == s.queue[0].ticket && t.queue[0].request == s.queue[0].request
            && t.queue[0].readyAt > now && t.queue[0].readyAt >= now + decision.retryAfterMs
            && (t.queue[0].readyAt == now + 1 || t.queue[0].readyAt == now + decision.retryAfterMs)
            && t.active == s.active && t.settled == s.settled)
      && (!StillAwaited(s) || !decision.NotReady? || p.overload.Reject? || p.maxQueued == 0 ==> Stops(p, t, now))
  {
    hide Tickets, Ordered, DistinctIds, Closures, WithinLimits, Room, BlockedBy, DrainLoop, Stops, AdmitsFirst, IsAdmitted,
         Extends;
    var a := s.(awaiting := None);
    if !StillAwaited(s) || decision.Interrupted? {
      var n := DrainLoopMeans(p, a, now);
    } else if decision.Ready? {
      AdmitSafe(p, a);
      HeadAdmitted(a);
      var n := DrainLoopMeans(p, Admit(a), now);
      DrainLoopExtends(p, Admit(a), now);
      StaysAdmitted(Admit(a), DrainLoop(p, Admit(a), now), s.queue[0], |s.issued|);
    } else if p.overload == Reject || p.maxQueued == 0 {
      RefuseSafe(p, a);
      var n := DrainLoopMeans(p, Refuse(a), now);
      DrainLoopExtends(p, Refuse(a), now);
      RefusalStays(p, a, DrainLoop(p, Refuse(a), now));
    }
  }

  lemma RefusalStays(p: Policy, a: State, t: State)
    requires a.queue != [] && Extends(Refuse(a), t, {})
    ensures a.queue[0].ticket in t.settled && t.settled[a.queue[0].ticket] == Overloaded
  {
  }

  /** With hooks installed nobody is admitted unless they said so of this very request. */
  ghost predicate OnlyAnswered(s: State, t: State, e: Event) {
    forall k :: k in t.settled && k !in s.settled && t.settled[k].Admitted? ==>
      e.EvResume? && e.decision.Ready? && StillAwaited(s) && k == s.queue[0].ticket
  }

  lemma DrainAdmitsNobody(p: Policy, s: State, now: int)
    requires p.hooks
    ensures DrainLoop(p, s, now).settled == s.settled && Drain(p, s, now).settled == s.settled
  {
    hide BlockedBy;
  }

  lemma HooksDecide(p: Policy, s: State, e: Event)
    requires Inv(p, s) && p.hooks
    ensures OnlyAnswered(s, Step(p, s, e), e)
  {
    hide Inv, BlockedBy, DrainLoop, Drain, AcquireRefusal;
    match e
    case EvAcquire(r, aborted, now) => DrainAdmitsNobody(p, Enqueue(s, r), now);
    case EvAcquireExisting(r) =>
    case EvRelease(k, now) => if k < |s.issued| { DrainAdmitsNobody(p, FreePermit(s, k), now); }
    case EvAbort(ticket, now) => if Find(s.queue, ticket) < |s.queue| { DrainAdmitsNobody(p, Cancel(s, ticket), now); }
    case EvTimer(now) => DrainAdmitsNobody(p, s.(timer := false), now);
    case EvResume(decision, now) =>
      var a := s.(awaiting := None);
      DrainAdmitsNobody(p, a, now);
      if a.queue != [] {
        DrainAdmitsNobody(p, Admit(a), now);
        DrainAdmitsNobody(p, Refuse(a), now);
      }
  }

  // ---------------------------------------------------------------- the scheduler object

  ghost function Among(active: map<string, Permit>, ids: set<string>, d: Dim, v: string): set<string>
    requires ids <= active.Keys
  {
    set id | id in ids && Key(d, active[id].request.scope) == v
  }

  lemma AmongStep(active: map<string, Permit>, ids: set<string>, id: string, d: Dim, v: string)
    requires ids <= active.Keys && id in ids
    ensures |Among(active, ids, d, v)| ==
            |Among(active, ids - {id}, d, v)| + if Key(d, active[id].request.scope) == v then 1 else 0
  {
    hide Key;
    var smaller := Among(active, ids - {id}, d, v);
    assert id !in smaller;
    if Key(d, active[id].request.scope) == v {
      assert Among(active, ids, d, v) == smaller + {id};
    } else {
      assert Among(active, ids, d, v) == smaller;
    }
  }

  datatype Reply = Waiting(ticket: nat) | Refused(refusal: Refusal)

  class ConcurrencyScheduler {
    const policy: Policy
    var queue: seq<Pending>
    var active: map<string, Permit>
    var wakeTimer: bool
    var draining: bool
    /** The pending request whose hooks a suspended `drain` is waiting for. */
    var awaiting: Option<nat>
    /** The promises handed out by `acquire`: what was asked, and how those that settled did. */
    var requests: seq<Request>
    var settled: map<nat, Outcome>
    /** The release closures handed out, and those whose `released` flag is set. */
    var issued: seq<string>
    var released: set<nat>

    ghost function View(): State
      reads this
    {
      State(queue, active, wakeTimer, draining, awaiting, requests, settled, issued, released)
    }

    ghost predicate Valid()
      reads this
    {
      policy.Valid() && Inv(policy, View())
    }

    constructor (policy: Policy)
      requires policy.Valid()
      ensures Valid() && View() == Init && this.policy == policy
    {
      this.policy := policy;
      queue, active, wakeTimer, draining, awaiting := [], map[], false, false, None;
      requests, settled, issued, released := [], map[], [], {};
      new;
      RunInv(policy, []);
    }

    /** The constructor of the program refuses a policy with a limit of zero. */
    static method Create(policy: Policy) returns (scheduler: Option<ConcurrencyScheduler>)
      ensures scheduler.Some? <==> policy.Valid()
      ensures scheduler.Some? ==> fresh(scheduler.value) && scheduler.value.Valid() && scheduler.value.policy == policy
    {
      if policy.Valid() {
        var s := new ConcurrencyScheduler(policy);
        return Some(s);
      }
      return None;
    }

    method Count(d: Dim, value: string) returns (total: nat)
      ensures total == |Members(active, d, value)|
    {
      total := 0;
      var rest := active.Keys;
      assert Among(active, rest, d, value) == Members(active, d, value);
      while rest != {}
        invariant rest <= active.Keys
        invariant total + |Among(active, rest, d, value)| == |Members(active, d, value)|
        decreases |rest|
      {
        var id :| id in rest;
        AmongStep(active, rest, id, d, value);
        if Key(d, active[id].request.scope) == value {
          total := total + 1;
        }
        rest := rest - {id};
      }
    }

    method LimitsBlocking(r: Request) returns (blocked: seq<Dim>)
      ensures blocked == BlockedBy(policy, active, r)
    {
      hide Members;
      var all := Count(Global, "");
      var host := Count(Host, r.scope.host);
      var project := Count(Project, r.scope.project);
      var agent := Count(Agent, r.scope.agent);
      var workspace := Count(Workspace, r.scope.workspace);
      blocked := (if all >= policy.global then [Global] else []) +
                 (if host >= policy.perHost then [Host] else []) +
                 (if project >= policy.perProject then [Project] else []) +
                 (if agent >= policy.perAgent then [Agent] else []) +
                 (if workspace >= policy.perWorkspace then [Workspace] else []);
    }

    method IsKnown(id: string) returns (known: bool)
      ensures known <==> Known(View(), id)
    {
      if id in active { return true; }
      for i := 0 to |queue|
        invariant forall k :: 0 <= k < i ==> queue[k].request.id != id
      {
        if queue[i].request.id == id { return true; }
      }
      return false;
    }

    /** `activate`: returns the number of the new release closure. */
    method MakePermit(r: Request, origin: Origin) returns (serial: nat)
      modifies `active, `issued
      ensures View() == Activate(old(View()), r, origin) && serial == old(|issued|)
    {
      serial := |issued|;
      active := active[r.id := Permit(serial, r, origin)];
      issued := issued + [r.id];
    }

    method AdmitHead()
      requires queue != []
      modifies `queue, `settled, `active, `issued
      ensures View() == Admit(old(View()))
    {
      var pending := queue[0];
      queue := queue[1..];
      settled := settled[pending.ticket := Admitted(|issued|)];
      var _ := MakePermit(pending.request, FromQueue);
    }

    method RefuseHead()
      requires queue != []
      modifies `queue, `settled
      ensures View() == Refuse(old(View()))
    {
      settled := settled[queue[0].ticket := Overloaded];
      queue := queue[1..];
    }

    /** The loop of `drain`, run until it returns or suspends at the hooks. */
    method Loop(now: int)
      requires draining && awaiting.None?
      modifies this
      ensures View() == DrainLoop(policy, old(View()), now)
    {
      while queue != []
        invariant draining && awaiting.None?
        invariant DrainLoop(policy, View(), now) == DrainLoop(policy, old(View()), now)
        decreases |queue|
      {
        var pending := queue[0];
        var blocked := LimitsBlocking(pending.request);
        if blocked != [] { break; }
        if pending.readyAt > now {
          wakeTimer := true;
          break;
        }
        if policy.hooks {
          awaiting := Some(pending.ticket);
          return;
        }
        AdmitHead();
      }
      draining := false;
    }

    /** `drain`: does nothing while another run of it is under way. */
    method DrainQueue(now: int)
      requires Parked(View())
      modifies this
      ensures View() == Drain(policy, old(View()), now)
    {
      if draining { return; }
      draining := true;
      Loop(now);
    }

    /** The checks of `acquire`, in their order. */
    method RefusalOf(r: Request, aborted: bool) returns (refusal: Option<Refusal>)
      ensures refusal == AcquireRefusal(policy, View(), r, aborted)
    {
      hide BlockedBy, Known;
      if !r.Valid() { return Some(InvalidRequest); }
      if aborted { return Some(AlreadyAborted); }
      var known := IsKnown(r.id);
      if known { return Some(DuplicateId); }
      var limits := LimitsBlocking(r);
      if policy.overload == Reject && (queue != [] || limits != []) { return Some(CapacityUnavailable); }
      if |queue| >= policy.maxQueued && (queue != [] || limits != []) { return Some(CapacityUnavailable); }
      return None;
    }

    method Acquire(r: Request, aborted: bool, now: int) returns (reply: Reply)
      requires Valid()
      modifies this
      ensures Valid() && View() == AcquireStep(policy, old(View()), r, aborted, now)
      ensures reply == match AcquireRefusal(policy, old(View()), r, aborted)
                       case Some(why) => Refused(why)
                       case None => Waiting(old(|requests|))
    {
      assert Parked(View());
      hide Inv, AcquireRefusal, Drain;
      AcquireInv(policy, View(), r, aborted, now);
      var refusal := RefusalOf(r, aborted);
      if refusal.Some? { return Refused(refusal.value); }
      reply := Waiting(|requests|);
      queue := queue + [Pending(|requests|, r, 0)];
      requests := requests + [r];
      DrainQueue(now);
    }

    method AcquireExisting(r: Request) returns (permit: Option<nat>)
      requires Valid()
      modifies this
      ensures Valid() && View() == AcquireExistingStep(old(View()), r)
      ensures permit == if r.Valid() && !Known(old(View()), r.id) then Some(old(|issued|)) else None
    {
      AcquireExistingInv(policy, View(), r);
      if !r.Valid() { return None; }
      var known := IsKnown(r.id);
      if known { return None; }
      var serial := MakePermit(r, Existing);
      return Some(serial);
    }

    /** A call of the release closure with this number. */
    method Release(serial: nat, now: int)
      requires Valid() && serial < |issued|
      modifies this
      ensures Valid() && View() == ReleaseStep(policy, old(View()), serial, now)
      ensures Released(policy, old(View()), View(), serial, now)
    {
      assert Parked(View());
      hide Inv, BlockedBy, Known, DrainLoop, Drain, Admit, Refuse, Released;
      ReleaseInv(policy, View(), serial, now);
      ReleaseDoes(policy, View(), serial, now);
      if serial in released { return; }
      released := released + {serial};
      active := active - {issued[serial]};
      DrainQueue(now);
    }

    method Withdraw(ticket: nat)
      requires Find(queue, ticket) < |queue|
      modifies this
      ensures View() == Cancel(old(View()), ticket)
    {
      var index := Find(queue, ticket);
      queue := queue[..index] + queue[index + 1..];
      wakeTimer := false;
      settled := settled[ticket := Cancelled];
    }

    /** The abort listener of a pending request. */
    method OnAbort(ticket: nat, now: int)
      requires Valid()
      modifies this
      ensures Valid() && View() == AbortStep(policy, old(View()), ticket, now)
    {
      assert Parked(View()) && (Find(queue, ticket) < |queue| ==> Parked(Cancel(View(), ticket)));
      AbortInv(policy, View(), ticket, now);
      hide Inv, Parked, Cancel, Drain, Find;
      if Find(queue, ticket) == |queue| { return; }
      Withdraw(ticket);
      DrainQueue(now);
    }

    method OnTimer(now: int)
      requires Valid() && wakeTimer
      modifies this
      ensures Valid() && View() == TimerStep(policy, old(View()), now)
    {
      assert Parked(View());
      hide Inv, BlockedBy, Known, DrainLoop, Drain, Admit, Refuse;
      TimerInv(policy, View(), now);
      wakeTimer := false;
      DrainQueue(now);
    }

    /** The `wake` branch of `drain`: the head is put off and the timer armed. */
    method Postpone(retryAfterMs: int, now: int)
      requires queue != []
      modifies this
      ensures View() == var before := old(View());
                        before.(queue := [before.queue[0].(readyAt := now + if retryAfterMs < 1 then 1 else retryAfterMs)]
                                         + before.queue[1..],
                                timer := true, draining := false)
    {
      var delay := if retryAfterMs < 1 then 1 else retryAfterMs;
      queue := [queue[0].(readyAt := now + delay)] + queue[1..];
      wakeTimer := true;
      draining := false;
    }

    /** The rest of `drain` once the pressure hooks of the awaited request have answered. */
    method Answered(decision: Decision, now: int)
      requires draining && awaiting.Some?
      modifies this
      ensures View() == ResumeStep(policy, old(View()), decision, now)
    {
      hide DrainLoop, Admit, Refuse;
      var ticket := awaiting.value;
      awaiting := None;
      if queue == [] || queue[0].ticket != ticket || decision.Interrupted? {
        Loop(now);
      } else if decision.Ready? {
        AdmitHead();
        Loop(now);
      } else if policy.overload == Reject || policy.maxQueued == 0 {
        RefuseHead();
        Loop(now);
      } else {
        Postpone(decision.retryAfterMs, now);
      }
    }

    method Resume(decision: Decision, now: int)
      requires Valid() && awaiting.Some?
      modifies this
      ensures Valid() && View() == ResumeStep(policy, old(View()), decision, now)
    {
      assert draining;
      hide Inv, ResumeStep;
      ResumeInv(policy, View(), decision, now);
      Answered(decision, now);
    }
  }
}
