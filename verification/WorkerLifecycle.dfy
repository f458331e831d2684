/**
 * One worker record of the durable store, the assignment it was accepted with, and the lifecycle service that
 * cancels it, expires it and asks the provider to stop it.  Each store operation is one locked
 * load-update-persist, so it is one step; the provider calls lie between steps.
 */
module WorkerLifecycle {
  import opened Common

  // ---------------------------------------------------------------- records

  datatype Status = Requested | Running | Canceling | Succeeded | Failed | Canceled | UnknownOutcome

  predicate Terminal(s: Status) {
    s == Succeeded || s == Failed || s == Canceled
  }

  datatype CancelReason = UserRequested | OrchestratorShutdown | Superseded | PolicyRevoked
  datatype FailReason = LaunchError | ExecutionError | DeadlineExceeded | ArtifactError | OtherFailure
  datatype Reason = Success | SuccessBeforeCancellation | Failure(why: FailReason) | Cancellation(cause: CancelReason)

  predicate Suits(s: Status, r: Reason) {
    && (s == Succeeded ==> r.Success? || r.SuccessBeforeCancellation?)
    && (s == Failed ==> r.Failure?)
    && (s == Canceled ==> r.Cancellation?)
  }

  /** The statuses a provider observation may report; the type of the program includes the last one. */
  datatype Outcome = Finished | Broke | Stopped | Lost

  function StatusOf(o: Outcome): Status {
    match o case Finished => Succeeded case Broke => Failed case Stopped => Canceled case Lost => UnknownOutcome
  }

  datatype LaunchStatus = Accepted | Launching | Launched | LaunchFailed
  datatype EventKind = AcceptedEvent | ReservedEvent | StartedEvent | FailedEvent

  /** The launch service names an event after its assignment and kind; the store accepts any name. */
  datatype EventId = Derived(kind: EventKind) | Other(name: nat)

  datatype Event = Event(id: EventId, kind: EventKind, at: int, run: Option<nat>, error: Option<nat>)

  datatype Assignment = Assignment(status: LaunchStatus, run: Option<nat>, events: map<EventId, Event>,
                                   captured: Option<nat>)

  datatype Worker = Worker(
    status: Status, pid: Option<nat>, run: Option<nat>, result: Option<nat>,
    stopReason: Option<Reason>, completedAt: Option<int>, preCancel: Option<Status>, deadline: Option<int>,
    reconcilePending: bool,
    cancelPending: bool, cancelClaimed: bool, cancelDelivered: bool,
    stopPending: bool, stopClaimed: bool, stopUnsupported: bool,
    launch: Option<Assignment>)

  predicate StartedMatches(a: Assignment) {
    forall id :: id in a.events && a.events[id].kind.StartedEvent? ==>
      a.events[id].run.Some? && a.events[id].run == a.run
  }

  /** What the schema checks of a worker and its assignment before anything is written. */
  predicate Storable(w: Worker) {
    && (w.status == Running ==> w.pid.Some?)
    && (w.stopReason.Some? ==> Suits(w.status, w.stopReason.value))
    && (w.launch.Some? ==> StartedMatches(w.launch.value))
  }

  // ---------------------------------------------------------------- store operations

  function BindRun(w: Worker, run: nat, execution: Option<nat>): Option<Worker> {
    if Terminal(w.status) || (w.run.Some? && w.run.value != run) then None
    else
      var starts := execution.Some? && (w.status == Requested || w.status == Running);
      Some(w.(run := Some(run), status := if starts then Running else w.status,
              pid := if starts then execution else w.pid))
  }

  function SetDeadline(w: Worker, at: int): Option<Worker> {
    if Terminal(w.status) then None else Some(w.(deadline := Some(at)))
  }

  predicate IsLaunching(w: Worker) { w.launch.Some? && w.launch.value.status == Launching }

  function RequestCancel(w: Worker, reason: CancelReason, at: int): Worker {
    if Terminal(w.status) || w.status == Canceling then w
    else
      var local := w.run.None? && !IsLaunching(w);
      w.(status := if local then Canceled else Canceling,
         completedAt := if local then Some(at) else w.completedAt,
         stopReason := Some(Cancellation(reason)),
         preCancel := if local then w.preCancel else Some(w.status),
         cancelPending := !local || w.cancelPending)
  }

  function ClaimCancel(w: Worker): Worker {
    if !w.cancelPending || w.cancelClaimed then w
    else w.(cancelPending := false, cancelClaimed := true)
  }

  predicate TimedOut(w: Worker) { w.status == Failed && w.stopReason == Some(Failure(DeadlineExceeded)) }

  function ReleaseCancel(w: Worker): Worker {
    w.(cancelClaimed := false,
       cancelPending := w.cancelPending || w.status == Canceling,
       stopPending := w.stopPending || (TimedOut(w) && w.run.Some?))
  }

  function CancelDelivered(w: Worker): Worker {
    w.(cancelPending := false, cancelClaimed := false, cancelDelivered := true, stopPending := false,
       stopClaimed := false)
  }

  function StopDelivered(w: Worker): Worker {
    w.(stopPending := false, stopClaimed := false, stopUnsupported := false)
  }

  function StopUnsupported(w: Worker): Worker {
    w.(stopPending := false, stopClaimed := false, stopUnsupported := true)
  }

  function Restored(w: Worker): Status {
    if w.preCancel.Some? then w.preCancel.value else Requested
  }

  function CancelWithdrawn(w: Worker): Worker {
    w.(status := Restored(w), preCancel := None, stopReason := None)
  }

  function CancelUnsupported(w: Worker): Worker {
    var answered := w.(cancelPending := false, cancelClaimed := false);
    if TimedOut(w) then StopUnsupported(answered)
    else if w.status == Canceling then CancelWithdrawn(answered)
    else answered
  }

  function ClaimStop(w: Worker): Worker {
    if !w.stopPending || w.stopClaimed then w
    else w.(stopPending := false, stopClaimed := true)
  }

  function ReleaseStop(w: Worker): Worker {
    w.(stopClaimed := false, stopPending := w.stopPending || w.run.Some?)
  }

  /** What a starting server does with the claims its predecessor left. */
  function Recovered(w: Worker): Worker {
    var status := if w.cancelClaimed && w.status == UnknownOutcome then Canceling else w.status;
    w.(status := status,
       cancelClaimed := false, stopClaimed := false,
       cancelPending := w.cancelPending || (w.cancelClaimed && w.run.Some? && !Terminal(status)),
       stopPending := w.stopPending || (w.cancelClaimed && w.run.Some? && TimedOut(w))
                      || (w.stopClaimed && w.run.Some?))
  }

  function ClearCancel(w: Worker): Worker {
    if w.status != Canceling then w
    else w.(status := Restored(w), preCancel := None, stopReason := None,
            cancelPending := false, cancelClaimed := false, cancelDelivered := false)
  }

  /** The stop reason a terminal transition records when its caller gives none. */
  function DefaultReason(w: Worker, to: Outcome, succeededAs: Reason): Option<Reason> {
    match to
    case Finished => Some(succeededAs)
    case Stopped => Some(if w.stopReason.Some? then w.stopReason.value else Cancellation(UserRequested))
    case Broke => Some(Failure(ExecutionError))
    case Lost => None
  }

  function CancellationOver(w: Worker): Worker {
    w.(cancelPending := false, cancelClaimed := false, preCancel := None)
  }

  function Settled(w: Worker, to: Outcome, result: Option<nat>, reason: Option<Reason>, succeededAs: Reason, at: int,
                   keep: bool): (t: Worker)
    ensures t.run == w.run && t.launch == w.launch && t.pid == w.pid && t.preCancel.None?
  {
    CancellationOver(w).(status := StatusOf(to), completedAt := Some(at), reconcilePending := keep,
                         result := if result.Some? then result else w.result,
                         stopReason := if reason.Some? then reason else DefaultReason(w, to, succeededAs))
  }

  function RecordTerminal(w: Worker, to: Outcome, result: Option<nat>, reason: Option<Reason>, at: int): Option<Worker> {
    if reason.Some? && !Suits(StatusOf(to), reason.value) then None
    else if Terminal(w.status) then
      Some(w.(result := if w.result.None? then result else w.result, reconcilePending := false))
    else
      Some(Settled(w, to, result, reason, if w.status == Canceling then SuccessBeforeCancellation else Success, at, false))
  }

  function Settle(w: Worker, to: Outcome, result: Option<nat>, reason: Option<Reason>, at: int, keep: bool): Option<Worker> {
    if reason.Some? && !Suits(StatusOf(to), reason.value) then None
    else if Terminal(w.status) then
      Some(w.(result := if result.Some? && (w.result.None? || w.reconcilePending) then result else w.result,
              reconcilePending := keep && w.reconcilePending,
              cancelPending := false, cancelClaimed := false))
    else if w.status != Canceling then Some(w)
    else Some(Settled(w, to, result, reason, SuccessBeforeCancellation, at, keep))
  }

  /** The deadline `expireWorker` goes by: the one it is given, else the one on record. */
  function Limit(w: Worker, given: Option<int>): Option<int> {
    if given.Some? then given else w.deadline
  }

  predicate Overdue(w: Worker, given: Option<int>, at: int) {
    !Terminal(w.status) && Limit(w, given).Some? && Limit(w, given).value <= at
  }

  /** A worker that may be executing is to be stopped, unless its cancellation is being delivered or was. */
  function StopArmed(w: Worker): Worker {
    if w.run.None? && !IsLaunching(w) then w
    else w.(reconcilePending := true, stopPending := w.stopPending || (!w.cancelClaimed && !w.cancelDelivered))
  }

  function PastDeadline(w: Worker, at: int): Worker {
    w.(status := Failed, stopReason := Some(Failure(DeadlineExceeded)), completedAt := Some(at), cancelPending := false,
       preCancel := None)
  }

  function Expire(w: Worker, given: Option<int>, at: int): (t: Worker)
    ensures t.run == w.run && t.launch == w.launch && t.pid == w.pid
    ensures t.preCancel.Some? ==> t.preCancel == w.preCancel
  {
    var limited := w.(deadline := Limit(w, given));
    if Overdue(w, given, at) then PastDeadline(StopArmed(limited), at) else limited
  }

  /** `recordWorkerResult` leaves the stop reason as it is. */
  function RecordResult(w: Worker, succeeded: bool, result: nat, at: int): Option<Worker> {
    var status := if succeeded then Succeeded else Failed;
    if Terminal(w.status) then
      if w.status != status || w.result != Some(result) then None else Some(w)
    else Some(w.(status := status, result := Some(result), completedAt := Some(at)))
  }

  /** `alive`: what the operating system says of the process on record. */
  function Reconciled(w: Worker, alive: bool, at: int): Worker {
    var gone := w.status == Running && (w.pid.None? || !alive);
    w.(status := if gone then UnknownOutcome else w.status, completedAt := if gone then Some(at) else w.completedAt)
  }

  function Expected(to: LaunchStatus): EventKind {
    match to case Accepted => AcceptedEvent case Launching => ReservedEvent case Launched => StartedEvent
             case LaunchFailed => FailedEvent
  }

  predicate Allowed(from: LaunchStatus, to: LaunchStatus) {
    || (from == Accepted && (to == Launching || to == LaunchFailed))
    || (from == Launching && (to == Launched || to == LaunchFailed))
  }

  function Logged(a: Assignment, to: LaunchStatus, e: Event): Assignment {
    a.(status := to, run := if e.run.Some? then e.run else a.run,
       events := if e.id in a.events then a.events else a.events[e.id := e])
  }

  function Preempted(a: Assignment, e: Event): Assignment {
    a.(status := LaunchFailed, events := a.events[e.id := e.(kind := FailedEvent)])
  }

  /** A run that starts for a worker that has finished meanwhile is to be stopped. */
  function LaunchBound(w: Worker, e: Event): Worker {
    var late := e.run.Some? && Terminal(w.status);
    w.(run := if e.run.Some? then e.run else w.run,
       reconcilePending := w.reconcilePending || late, stopPending := w.stopPending || late)
  }

  function LaunchFails(w: Worker, e: Event): Worker {
    if Terminal(w.status) then w
    else
      w.(status := Failed, completedAt := Some(e.at), stopReason := Some(Failure(LaunchError)),
         result := Some(if e.error.Some? then e.error.value else 0))
  }

  function DeliveryForgotten(w: Worker): Worker {
    w.(preCancel := None, cancelPending := false, cancelClaimed := false, reconcilePending := false,
       stopPending := false, stopClaimed := false)
  }

  function LaunchRecorded(w: Worker, a: Assignment, to: LaunchStatus, e: Event): Worker {
    var started := LaunchBound(w, e);
    (if to == LaunchFailed then DeliveryForgotten(LaunchFails(started, e)) else started).(launch := Some(Logged(a, to, e)))
  }

  /** The transitions `recordLaunchEvent` reports; giving up a canceled launch is not one of them. */
  predicate Transitions(w: Worker, to: LaunchStatus) {
    && w.launch.Some? && Allowed(w.launch.value.status, to)
    && !(to == Launching && Terminal(w.status))
  }

  /** `to` is `Launching`, `Launched` or `LaunchFailed`. */
  function RecordLaunch(w: Worker, to: LaunchStatus, e: Event): Option<Worker> {
    if w.launch.None? then None
    else
      var a := w.launch.value;
      if to == Launching && Terminal(w.status) then
        // The event is pushed whatever the status of the assignment; only a duplicate id is refused.
        if e.id in a.events then None
        else Some(w.(launch := Some(Preempted(a, e))))
      else if e.kind != Expected(to) then None
      else if e.id in a.events && a.events[e.id] != e then None
      else if !Allowed(a.status, to) then Some(w)
      else if e.run.Some? && w.run.Some? && w.run != e.run then None
      else Some(LaunchRecorded(w, a, to, e))
  }

  datatype Claim = ClaimSucceeded | ClaimCancelled | ClaimMalformed | ClaimFailed

  /** A result delivery; `matches` stands for the comparison of all identities besides the run. */
  datatype Delivery = Delivery(matches: bool, run: nat, fingerprint: nat, claim: Claim, at: int)

  function ClaimedStatus(c: Claim): Status {
    match c case ClaimSucceeded => Succeeded case ClaimCancelled => Canceled case ClaimMalformed => Failed
            case ClaimFailed => Failed
  }

  function ClaimedReason(c: Claim): Reason {
    match c case ClaimSucceeded => Success case ClaimCancelled => Cancellation(UserRequested)
            case ClaimMalformed => Failure(ArtifactError) case ClaimFailed => Failure(ExecutionError)
  }

  function EndedAs(w: Worker, c: Claim): Worker {
    w.(status := ClaimedStatus(c), stopReason := Some(ClaimedReason(c)))
  }

  function CaptureEnds(w: Worker, d: Delivery): Worker {
    w.(result := Some(d.fingerprint), completedAt := Some(d.at), preCancel := None, reconcilePending := false,
       cancelPending := false)
  }

  function CaptureResult(w: Worker, d: Delivery): Option<Worker> {
    if w.launch.None? || !d.matches || w.launch.value.run != Some(d.run) then None
    else if w.launch.value.status != Launched then None
    else if w.launch.value.captured.Some? then
      if w.launch.value.captured.value != d.fingerprint then None else Some(w)
    else
      Some((if Terminal(w.status) then w else CaptureEnds(EndedAs(w, d.claim), d))
             .(launch := Some(w.launch.value.(captured := Some(d.fingerprint)))))
  }

  datatype Op =
    | OpBindRun(run: nat, execution: Option<nat>)
    | OpSetDeadline(at: int)
    | OpRequestCancel(reason: CancelReason, at: int)
    | OpClaimCancel | OpReleaseCancel | OpCancelDelivered | OpCancelUnsupported
    | OpClaimStop | OpReleaseStop | OpStopDelivered | OpStopUnsupported
    | OpRecover | OpClearCancel
    | OpRecordTerminal(to: Outcome, result: Option<nat>, why: Option<Reason>, at: int)
    | OpSettle(to: Outcome, result: Option<nat>, why: Option<Reason>, at: int, keep: bool)
    | OpExpire(limit: Option<int>, at: int)
    | OpRecordResult(succeeded: bool, value: nat, at: int)
    | OpReconcile(alive: bool, at: int)
    | OpRecordLaunch(next: LaunchStatus, event: Event)
    | OpCapture(delivery: Delivery)

  /** The record an operation wants to write; `None` when it throws first. */
  function Update(w: Worker, op: Op): Option<Worker> {
    match op
    case OpBindRun(run, execution) => BindRun(w, run, execution)
    case OpSetDeadline(at) => SetDeadline(w, at)
    case OpRequestCancel(reason, at) => Some(RequestCancel(w, reason, at))
    case OpClaimCancel => Some(ClaimCancel(w))
    case OpReleaseCancel => Some(ReleaseCancel(w))
    case OpCancelDelivered => Some(CancelDelivered(w))
    case OpCancelUnsupported => Some(CancelUnsupported(w))
    case OpClaimStop => Some(ClaimStop(w))
    case OpReleaseStop => Some(ReleaseStop(w))
    case OpStopDelivered => Some(StopDelivered(w))
    case OpStopUnsupported => Some(StopUnsupported(w))
    case OpRecover => Some(Recovered(w))
    case OpClearCancel => Some(ClearCancel(w))
    case OpRecordTerminal(to, result, why, at) => RecordTerminal(w, to, result, why, at)
    case OpSettle(to, result, why, at, keep) => Settle(w, to, result, why, at, keep)
    case OpExpire(limit, at) => Some(Expire(w, limit, at))
    case OpRecordResult(succeeded, value, at) => RecordResult(w, succeeded, value, at)
    case OpReconcile(alive, at) => Some(Reconciled(w, alive, at))
    case OpRecordLaunch(next, event) => if next == Accepted then None else RecordLaunch(w, next, event)
    case OpCapture(d) => CaptureResult(w, d)
  }

  /** Nothing reaches the disk unless the whole state passes the schema; every operation reads the disk afresh. */
  function Persisted(w: Worker, wanted: Option<Worker>): Worker {
    if wanted.Some? && Storable(wanted.value) then wanted.value else w
  }

  function Apply(w: Worker, op: Op): Worker {
    Persisted(w, Update(w, op))
  }

  function ApplyAll(w: Worker, ops: seq<Op>): Worker
    decreases |ops|
  {
    if ops == [] then w else Apply(ApplyAll(w, ops[..|ops| - 1]), ops[|ops| - 1])
  }

  // ---------------------------------------------------------------- what the store alone guarantees

  ghost predicate SameEnding(w: Worker, t: Worker) {
    t.status == w.status && t.stopReason == w.stopReason && t.completedAt == w.completedAt
  }

  lemma TerminalLaunch(w: Worker, to: LaunchStatus, e: Event)
    requires Terminal(w.status) && RecordLaunch(w, to, e).Some?
    ensures SameEnding(w, RecordLaunch(w, to, e).value)
  {
  }

  lemma TerminalSettle(w: Worker, to: Outcome, result: Option<nat>, why: Option<Reason>, at: int, keep: bool)
    requires Terminal(w.status)
    ensures Settle(w, to, result, why, at, keep).Some? ==> SameEnding(w, Settle(w, to, result, why, at, keep).value)
    ensures RecordTerminal(w, to, result, why, at).Some? ==> SameEnding(w, RecordTerminal(w, to, result, why, at).value)
  {
  }

  lemma TerminalStep(w: Worker, op: Op)
    requires Terminal(w.status)
    ensures SameEnding(w, Apply(w, op))
  {
    hide Storable, RecordLaunch, Settle, RecordTerminal;
    match op {
      case OpRecordLaunch(next, e) =>
        if RecordLaunch(w, next, e).Some? { TerminalLaunch(w, next, e); }
      case OpSettle(to, result, why, at, keep) => TerminalSettle(w, to, result, why, at, keep);
      case OpRecordTerminal(to, result, why, at) => TerminalSettle(w, to, result, why, at, false);
      case _ =>
    }
  }

  /** No sequence of store operations changes how or when a finished worker finished. */
  lemma {:induction false} TerminalIsFinal(w: Worker, ops: seq<Op>)
    requires Terminal(w.status)
    ensures SameEnding(w, ApplyAll(w, ops))
    decreases |ops|
  {
    hide Apply;
    if ops != [] {
      TerminalIsFinal(w, ops[..|ops| - 1]);
      TerminalStep(ApplyAll(w, ops[..|ops| - 1]), ops[|ops| - 1]);
    }
  }

  // ---------------------------------------------------------------- assignments

  /** The launch service sends the event that belongs to the transition, named after its kind. */
  predicate Named(op: Op) {
    op.OpRecordLaunch? ==> op.event.kind == Expected(op.next) && op.event.id == Derived(op.event.kind)
  }

  ghost predicate AssignmentOk(a: Assignment, run: Option<nat>) {
    && (a.status == Launching || a.status == Launched ==> Derived(ReservedEvent) in a.events)
    && (a.status == Launched <==> Derived(StartedEvent) in a.events)
    && (a.status == Launched ==> a.run.Some?)
    && (forall id :: id in a.events ==> id.Derived?)
    && (forall k :: Derived(k) in a.events ==>
          (k == StartedEvent <==> a.events[Derived(k)].kind == StartedEvent))
    && (a.run.Some? ==> run == a.run)
  }

  predicate Forward(from: LaunchStatus, to: LaunchStatus) {
    from == to || from == Accepted || (from == Launching && (to == Launched || to == LaunchFailed))
  }

  /** The launch log only grows, the status moves forward and the run stays. */
  ghost predicate Continues(a: Assignment, b: Assignment) {
    && Forward(a.status, b.status)
    && (a.run.Some? ==> b.run == a.run)
    && (forall id :: id in a.events ==> id in b.events && b.events[id] == a.events[id])
  }

  ghost predicate Advances(w: Worker, t: Worker) {
    && (w.run.Some? ==> t.run == w.run)
    && (w.launch.None? <==> t.launch.None?)
    && (w.launch.Some? ==> Continues(w.launch.value, t.launch.value))
  }

  ghost predicate LaunchOk(w: Worker) {
    w.launch.Some? ==> AssignmentOk(w.launch.value, w.run)
  }

  lemma CanceledBeforeDispatch(a: Assignment, run: Option<nat>, e: Event)
    requires AssignmentOk(a, run) && e.id == Derived(ReservedEvent) && e.id !in a.events
    ensures
      AssignmentOk(Preempted(a, e), run) && Continues(a, Preempted(a, e))
  {
  }

  lemma EventRecorded(a: Assignment, run: Option<nat>, to: LaunchStatus, e: Event)
    requires AssignmentOk(a, run) && Allowed(a.status, to) && e.kind == Expected(to) && e.id == Derived(e.kind)
    requires e.id in a.events ==> a.events[e.id] == e
    requires e.run.Some? && run.Some? ==> run == e.run
    requires to == Launched ==> e.run.Some?
    ensures
      && AssignmentOk(Logged(a, to, e), if e.run.Some? then e.run else run)
      && Continues(a, Logged(a, to, e))
  {
  }

  lemma SameAdvances(w: Worker, t: Worker)
    requires t.run == w.run && t.launch == w.launch && LaunchOk(w)
    ensures LaunchOk(t) && Advances(w, t)
  {
  }

  /** The schema refuses an execution-started event without a run. */
  lemma StartedHasRun(w: Worker, e: Event)
    requires w.launch.Some? && e.kind == StartedEvent && e.id == Derived(e.kind)
    requires RecordLaunch(w, Launched, e).Some? && Allowed(w.launch.value.status, Launched)
    requires Storable(RecordLaunch(w, Launched, e).value)
    ensures e.run.Some?
  {
    var b := RecordLaunch(w, Launched, e).value.launch.value;
    assert b.events[e.id].run == b.run;
  }

  lemma NeedsAssignment(w: Worker, to: LaunchStatus, e: Event)
    requires RecordLaunch(w, to, e).Some?
    ensures w.launch.Some?
  {
  }

  /** What the three ways through `recordLaunchEvent` make of the run and the assignment. */
  lemma LaunchShape(w: Worker, to: LaunchStatus, e: Event)
    requires w.launch.Some? && RecordLaunch(w, to, e).Some?
    ensures
      var a, t := w.launch.value, RecordLaunch(w, to, e).value;
      if to == Launching && Terminal(w.status) then
        e.id !in a.events && t.run == w.run && t.launch == Some(Preempted(a, e))
      else if Allowed(a.status, to) then
        && (e.id in a.events ==> a.events[e.id] == e)
        && (e.run.Some? && w.run.Some? ==> w.run == e.run)
        && t.run == (if e.run.Some? then e.run else w.run)
        && t.launch == Some(Logged(a, to, e))
      else t == w
  {
    hide Logged, Preempted, Expected, Allowed, Terminal;
  }

  lemma RecordLaunchAdvances(w: Worker, to: LaunchStatus, e: Event)
    requires LaunchOk(w) && to != Accepted && e.kind == Expected(to) && e.id == Derived(e.kind)
    requires RecordLaunch(w, to, e).Some? && Storable(RecordLaunch(w, to, e).value)
    ensures LaunchOk(RecordLaunch(w, to, e).value) && Advances(w, RecordLaunch(w, to, e).value)
  {
    hide AssignmentOk, Continues, Storable, Logged, Preempted, RecordLaunch;
    NeedsAssignment(w, to, e);
    var a := w.launch.value;
    LaunchShape(w, to, e);
    if to == Launching && Terminal(w.status) {
      CanceledBeforeDispatch(a, w.run, e);
    } else if Allowed(a.status, to) {
      if to == Launched { StartedHasRun(w, e); }
      EventRecorded(a, w.run, to, e);
    } else {
      SameAdvances(w, w);
    }
  }

  lemma BindAdvances(w: Worker, run: nat, execution: Option<nat>)
    requires LaunchOk(w) && BindRun(w, run, execution).Some?
    ensures LaunchOk(BindRun(w, run, execution).value) && Advances(w, BindRun(w, run, execution).value)
  {
  }

  lemma CaptureAdvances(w: Worker, d: Delivery)
    requires LaunchOk(w) && CaptureResult(w, d).Some?
    ensures LaunchOk(CaptureResult(w, d).value) && Advances(w, CaptureResult(w, d).value)
  {
  }

  /** The other operations leave the run and the assignment alone. */
  lemma LaunchUntouched(w: Worker, op: Op)
    requires !op.OpRecordLaunch? && !op.OpBindRun? && !op.OpCapture? && Update(w, op).Some?
    ensures Update(w, op).value.run == w.run && Update(w, op).value.launch == w.launch
  {
    hide Suits, TimedOut, IsLaunching, Terminal, Expire, Settled;
    match op {
      case OpSettle(to, result, why, at, keep) =>
      case OpRecordTerminal(to, result, why, at) =>
      case _ =>
    }
  }

  lemma AdvanceStep(w: Worker, op: Op)
    requires LaunchOk(w) && Named(op)
    ensures LaunchOk(Apply(w, op)) && Advances(w, Apply(w, op))
  {
    hide Storable, RecordLaunch, BindRun, CaptureResult, LaunchOk, Advances;
    SameAdvances(w, w);
    if Update(w, op).Some? && Storable(Update(w, op).value) {
      if op.OpRecordLaunch? {
        RecordLaunchAdvances(w, op.next, op.event);
      } else if op.OpBindRun? {
        BindAdvances(w, op.run, op.execution);
      } else if op.OpCapture? {
        CaptureAdvances(w, op.delivery);
      } else {
        hide Update;
        LaunchUntouched(w, op);
        SameAdvances(w, Update(w, op).value);
      }
    }
  }

  /**
   * Assignments only move forward, a run is bound once, and exactly the launched ones have the one
   * execution-started event, whatever operations are applied in whatever order.
   */
  lemma {:induction false} LaunchesMoveForward(w: Worker, ops: seq<Op>)
    requires LaunchOk(w) && forall op :: op in ops ==> Named(op)
    ensures LaunchOk(ApplyAll(w, ops)) && Advances(w, ApplyAll(w, ops))
    decreases |ops|
  {
    if ops == [] {
      SameAdvances(w, w);
    } else {
      var before := ApplyAll(w, ops[..|ops| - 1]);
      LaunchesMoveForward(w, ops[..|ops| - 1]);
      AdvanceStep(before, ops[|ops| - 1]);
      hide Apply, AssignmentOk;
    }
  }

  function Progress(w: Worker): Option<LaunchStatus> {
    if w.launch.Some? then Some(w.launch.value.status) else None
  }

  /**
   * The branch for a launch that finds its worker finished does not look at the assignment.  It takes a
   * launched assignment back to failed exactly when the event id it is given is a new one.
   */
  lemma EarlyBranchRegresses(w: Worker, e: Event)
    requires Storable(w) && Terminal(w.status) && w.launch.Some?
    ensures Progress(Apply(w, OpRecordLaunch(Launching, e)))
            == if e.id in w.launch.value.events then Progress(w) else Some(LaunchFailed)
  {
    var a := w.launch.value;
    assert e.id !in a.events ==> StartedMatches(Preempted(a, e));
  }

  /** With an id of its own choosing a caller turns a launched assignment back into a failed one. */
  lemma ForeignIdRegresses()
    ensures exists w: Worker, e: Event ::
      && Storable(w) && LaunchOk(w) && Progress(w) == Some(Launched)
      && Progress(Apply(w, OpRecordLaunch(Launching, e))) == Some(LaunchFailed)
  {
    var reserved := Event(Derived(ReservedEvent), ReservedEvent, 1, None, None);
    var started := Event(Derived(StartedEvent), StartedEvent, 2, Some(7), None);
    var a := Assignment(Launched, Some(7), map[reserved.id := reserved, started.id := started], None);
    var w := Worker(Succeeded, None, Some(7), Some(1), Some(Success), Some(3), None, None, false, false, false, false,
                    false, false, false, Some(a));
    var e := Event(Other(0), ReservedEvent, 4, None, None);
    EarlyBranchRegresses(w, e);
    assert Storable(w) && LaunchOk(w);
    hide Apply, Storable, LaunchOk;
  }

  // ---------------------------------------------------------------- the lifecycle service

  /**
   * A worker and one server: the provider stop calls somebody still owns, and whether a deadline fired that
   * nobody has answered for.  A call that timed out but has not settled is still owned.
   */
  datatype Service = Service(w: Worker, cancelCalls: nat, stopCalls: nat, owed: bool)

  datatype Answer = Delivered | Unsupported | Unanswered

  datatype Happening =
    | Plain(op: Op)
    | Observed(to: Outcome, result: Option<nat>, why: Option<Reason>, at: int, keep: bool)
    | TakeCancel | CancelAnswer(answer: Answer)
    | TakeStop | StopAnswer(answer: Answer)
    | OwnerLost
    | Restart
    | Retract(op: Op)

  /** Operations that end a cancellation without an answer: it is cleared, or the worker is reported as lost. */
  predicate RetractOp(op: Op) {
    op.OpClearCancel? || ((op.OpRecordTerminal? || op.OpSettle?) && op.to == Lost)
  }

  /** One of them takes the claim away under a call that is in flight; the runs below do without these. */
  predicate Disturbs(s: Service) {
    s.cancelCalls + s.stopCalls > 0 && s.w.status == Canceling
  }

  function AfterRetract(s: Service, op: Op): Service {
    s.(w := Apply(s.w, op), owed := s.owed && !op.OpSettle?)
  }

  /**
   * Operations that may come at any time.  Claims and their answers belong to the service; a worker with an
   * assignment gets its run from the launch that is recorded, and no other event carries one.
   */
  predicate PlainOp(w: Worker, op: Op) {
    match op
    case OpBindRun(_, _) => w.launch.None?
    case OpRecordLaunch(next, e) => Named(op) && (e.run.Some? ==> next == Launched)
    case OpRecordTerminal(to, _, _, _) => to != Lost
    case OpSetDeadline(_) => true
    case OpRequestCancel(_, _) => true
    case OpExpire(_, _) => true
    case OpRecordResult(_, _, _) => true
    case OpReconcile(_, _) => true
    case OpCapture(_) => true
    case _ => false
  }

  /** A deadline fires on a worker that may be executing, and no stop has been delivered yet. */
  predicate Fires(w: Worker, op: Op) {
    && op.OpExpire?
    && Overdue(w, op.limit, op.at)
    && (w.run.Some? || IsLaunching(w))
    && !w.cancelDelivered
  }

  predicate LaunchGivenUp(w: Worker, op: Op) {
    && op.OpRecordLaunch? && op.next == LaunchFailed
    && w.launch.Some? && w.launch.value.status != LaunchFailed
    && Apply(w, op).launch == Some(Logged(w.launch.value, LaunchFailed, op.event))
  }

  function CancelOp(a: Answer): Op {
    match a case Delivered => OpCancelDelivered case Unsupported => OpCancelUnsupported case Unanswered => OpReleaseCancel
  }

  function StopOp(a: Answer): Op {
    match a case Delivered => OpStopDelivered case Unsupported => OpStopUnsupported case Unanswered => OpReleaseStop
  }

  function Step(s: Service, h: Happening): Service {
    match h
    case Plain(op) =>
      if !PlainOp(s.w, op) then s
      else s.(w := Apply(s.w, op), owed := Fires(s.w, op) || (s.owed && !LaunchGivenUp(s.w, op)))
    case Observed(to, result, why, at, keep) =>
      if to == Lost then s else s.(w := Apply(s.w, OpSettle(to, result, why, at, keep)), owed := false)
    case TakeCancel =>
      if s.w.run.None? || !s.w.cancelPending || s.w.cancelClaimed then s
      else s.(w := Apply(s.w, OpClaimCancel), cancelCalls := s.cancelCalls + 1)
    case CancelAnswer(a) =>
      if s.cancelCalls == 0 then s
      else s.(w := Apply(s.w, CancelOp(a)), cancelCalls := s.cancelCalls - 1, owed := s.owed && a == Unanswered)
    case TakeStop =>
      if s.w.run.None? || !s.w.stopPending || s.w.stopClaimed then s
      else s.(w := Apply(s.w, OpClaimStop), stopCalls := s.stopCalls + 1)
    case StopAnswer(a) =>
      if s.stopCalls == 0 then s
      else s.(w := Apply(s.w, StopOp(a)), stopCalls := s.stopCalls - 1, owed := s.owed && a == Unanswered)
    case OwnerLost =>
      s.(cancelCalls := if s.cancelCalls > 0 then s.cancelCalls - 1 else 0,
         stopCalls := if s.cancelCalls == 0 && s.stopCalls > 0 then s.stopCalls - 1 else s.stopCalls)
    case Restart => s.(w := Apply(s.w, OpRecover), cancelCalls := 0, stopCalls := 0)
    case Retract(op) => if !RetractOp(op) || Disturbs(s) then s else AfterRetract(s, op)
  }

  function Run(s: Service, hs: seq<Happening>): Service
    decreases |hs|
  {
    if hs == [] then s else Step(Run(s, hs[..|hs| - 1]), hs[|hs| - 1])
  }

  function Count(b: bool): nat { if b then 1 else 0 }

  /** The four delivery flags are one token, and each position of it fits the status. */
  ghost predicate Token(w: Worker) {
    && Count(w.cancelPending) + Count(w.cancelClaimed) + Count(w.stopPending) + Count(w.stopClaimed) <= 1
    && (w.cancelPending ==> w.status == Canceling)
    && (w.cancelClaimed ==> (w.status == Canceling || Terminal(w.status)) && w.run.Some?)
    && (w.stopPending || w.stopClaimed ==> Terminal(w.status))
    && (w.stopClaimed ==> w.run.Some?)
    && (w.status == Canceling ==> w.stopReason.Some? && w.stopReason.value.Cancellation?)
    && (w.preCancel.Some? ==> w.preCancel.value in {Requested, Running, UnknownOutcome})
  }

  /** Until its launch is recorded a worker with an assignment has no run. */
  ghost predicate Unbound(w: Worker) {
    w.launch.Some? && (w.launch.value.status == Accepted || w.launch.value.status == Launching) ==> w.run.None?
  }

  /** A call in flight leaves no token for a second one. */
  ghost predicate Calls(w: Worker, cancelCalls: nat, stopCalls: nat) {
    && cancelCalls + stopCalls <= 1
    && (cancelCalls + stopCalls == 1 ==> w.run.Some? && !w.cancelPending && !w.stopPending)
    && (cancelCalls == 1 ==> !w.stopClaimed && (w.cancelClaimed || Terminal(w.status)))
    && (stopCalls == 1 ==> !w.cancelClaimed && Terminal(w.status))
  }

  ghost predicate Owes(w: Worker) {
    && TimedOut(w) && (w.run.Some? || IsLaunching(w))
    && (w.stopPending || w.stopClaimed || w.cancelClaimed)
  }

  /** A worker that was running before its cancellation can be written as running again. */
  predicate Resumable(w: Worker) { w.preCancel == Some(Running) ==> w.pid.Some? }

  ghost predicate Inv(s: Service) {
    && Storable(s.w) && Resumable(s.w) && LaunchOk(s.w) && Unbound(s.w) && Token(s.w)
    && Calls(s.w, s.cancelCalls, s.stopCalls)
    && (s.owed ==> Owes(s.w))
  }

  lemma StorableStep(w: Worker, op: Op)
    requires Storable(w)
    ensures Storable(Apply(w, op))
  {
  }

  /** The process stays on record, and what is remembered of a cancellation is the status it met. */
  ghost predicate Remembers(w: Worker, t: Worker) {
    && (w.pid.Some? ==> t.pid.Some?)
    && (t.preCancel.Some? ==> t.preCancel == w.preCancel || t.preCancel.value == w.status)
  }

  lemma RecordedRemembers(w: Worker, a: Assignment, to: LaunchStatus, e: Event)
    ensures Remembers(w, LaunchRecorded(w, a, to, e))
  {
    hide Terminal, Logged;
  }

  lemma LaunchRemembers(w: Worker, to: LaunchStatus, e: Event)
    ensures RecordLaunch(w, to, e).Some? ==> Remembers(w, RecordLaunch(w, to, e).value)
  {
    hide Terminal, Allowed, Expected, LaunchRecorded, Preempted;
    if w.launch.Some? { RecordedRemembers(w, w.launch.value, to, e); }
  }

  lemma CaptureRemembers(w: Worker, d: Delivery)
    ensures CaptureResult(w, d).Some? ==> Remembers(w, CaptureResult(w, d).value)
  {
    hide Terminal, ClaimedStatus, ClaimedReason;
  }

  lemma SettleRemembers(w: Worker, to: Outcome, result: Option<nat>, why: Option<Reason>, at: int, keep: bool)
    ensures Settle(w, to, result, why, at, keep).Some? ==> Remembers(w, Settle(w, to, result, why, at, keep).value)
  {
  }

  lemma TerminalRemembers(w: Worker, to: Outcome, result: Option<nat>, why: Option<Reason>, at: int)
    ensures RecordTerminal(w, to, result, why, at).Some? ==> Remembers(w, RecordTerminal(w, to, result, why, at).value)
  {
  }

  lemma OperationRemembers(w: Worker, op: Op)
    ensures Update(w, op).Some? ==> Remembers(w, Update(w, op).value)
  {
    hide RecordLaunch, CaptureResult, Settle, RecordTerminal, Expire;
    match op
    case OpSettle(to, result, why, at, keep) => SettleRemembers(w, to, result, why, at, keep);
    case OpRecordTerminal(to, result, why, at) => TerminalRemembers(w, to, result, why, at);
    case OpRecordLaunch(next, e) => LaunchRemembers(w, next, e);
    case OpCapture(d) => CaptureRemembers(w, d);
    case _ =>
  }

  lemma ResumableStep(w: Worker, op: Op)
    requires Storable(w) && Resumable(w)
    ensures Resumable(Apply(w, op))
  {
    hide Update;
    OperationRemembers(w, op);
  }

  /** What an operation that is not a claim or its answer does to the token, any calls, and what is owed. */
  ghost predicate Keeps(w: Worker, t: Worker) {
    && Unbound(t) && Token(t)
    && (forall c: nat, d: nat :: Calls(w, c, d) ==> Calls(t, c, d))
    && (Owes(w) ==> Owes(t))
  }

  lemma CaptureKeeps(w: Worker, d: Delivery)
    requires Unbound(w) && Token(w) && CaptureResult(w, d).Some?
    ensures Keeps(w, CaptureResult(w, d).value)
  {
    hide StartedMatches;
  }

  lemma SettledKeeps(w: Worker, to: Outcome, result: Option<nat>, why: Option<Reason>, succeededAs: Reason, at: int,
                     keep: bool)
    requires Unbound(w) && Token(w) && to != Lost && !Terminal(w.status)
    ensures
      var t := Settled(w, to, result, why, succeededAs, at, keep);
      Unbound(t) && Token(t) && forall c: nat, d: nat :: Calls(w, c, d) ==> Calls(t, c, d)
  {
    hide DefaultReason;
  }

  lemma EndedOwesNothing(w: Worker)
    requires !Terminal(w.status)
    ensures !Owes(w)
  {
  }

  lemma RecordTerminalKeeps(w: Worker, to: Outcome, result: Option<nat>, why: Option<Reason>, at: int)
    requires Unbound(w) && Token(w) && to != Lost && RecordTerminal(w, to, result, why, at).Some?
    ensures Keeps(w, RecordTerminal(w, to, result, why, at).value)
  {
    hide DefaultReason, Suits;
    if !Terminal(w.status) {
      hide Token, Unbound, Calls, Owes, Settled;
      SettledKeeps(w, to, result, why, if w.status == Canceling then SuccessBeforeCancellation else Success, at, false);
      EndedOwesNothing(w);
    }
  }

  /** An observation that comes after the end only takes a claim away. */
  lemma SettledLateKeeps(w: Worker, t: Worker)
    requires Unbound(w) && Token(w) && Terminal(w.status)
    requires t == w.(result := t.result, reconcilePending := t.reconcilePending, cancelPending := false, cancelClaimed := false)
    ensures Unbound(t) && Token(t) && forall c: nat, d: nat :: Calls(w, c, d) ==> Calls(t, c, d)
  {
  }

  lemma SettleKeeps(w: Worker, to: Outcome, result: Option<nat>, why: Option<Reason>, at: int, keep: bool)
    requires Unbound(w) && Token(w) && to != Lost && Settle(w, to, result, why, at, keep).Some?
    ensures
      var t := Settle(w, to, result, why, at, keep).value;
      Unbound(t) && Token(t) && forall c: nat, d: nat :: Calls(w, c, d) ==> Calls(t, c, d)
  {
    hide DefaultReason, Suits, Token, Unbound, Calls, Settled;
    if Terminal(w.status) { SettledLateKeeps(w, Settle(w, to, result, why, at, keep).value); }
    else { SettledKeeps(w, to, result, why, SuccessBeforeCancellation, at, keep); }
  }

  lemma PlainKeeps(w: Worker, op: Op)
    requires Unbound(w) && Token(w) && PlainOp(w, op) && !op.OpRecordLaunch? && !op.OpExpire?
    requires Update(w, op).Some? && Storable(Update(w, op).value)
    ensures Keeps(w, Update(w, op).value)
  {
    hide StartedMatches;
    match op {
      case OpRecordTerminal(to, result, why, at) =>
        hide Token, Unbound, RecordTerminal, Keeps;
        RecordTerminalKeeps(w, to, result, why, at);
      case OpCapture(d) =>
        hide Token, Unbound, CaptureResult, Keeps;
        CaptureKeeps(w, d);
      case _ =>
    }
  }

  lemma ExpireKeeps(w: Worker, limit: Option<int>, at: int)
    requires Unbound(w) && Token(w)
    ensures Keeps(w, Expire(w, limit, at))
    ensures Fires(w, OpExpire(limit, at)) ==> Owes(Expire(w, limit, at))
  {
    if Overdue(w, limit, at) {
      hide Overdue, Limit;
      DeadlineKeeps(w.(deadline := Limit(w, limit)), at);
      EndedOwesNothing(w) by { assert !Terminal(w.status); }
    }
  }

  lemma DeadlineKeeps(w: Worker, at: int)
    requires Unbound(w) && Token(w) && !Terminal(w.status)
    ensures
      var t := PastDeadline(StopArmed(w), at);
      && Unbound(t) && Token(t) && (forall c: nat, d: nat :: Calls(w, c, d) ==> Calls(t, c, d))
      && ((w.run.Some? || IsLaunching(w)) && !w.cancelDelivered ==> Owes(t))
  {
  }

  /** Recording a launch arms the stop of a worker that finished meanwhile; there is no token elsewhere then. */
  lemma LaunchRecordedKeeps(w: Worker, a: Assignment, to: LaunchStatus, e: Event)
    requires Unbound(w) && Token(w) && w.launch == Some(a) && Allowed(a.status, to)
    requires e.run.Some? ==> to == Launched
    requires to == Launched ==> e.run.Some?
    ensures
      var t := LaunchRecorded(w, a, to, e);
      && Unbound(t) && Token(t)
      && (forall c: nat, d: nat :: Calls(w, c, d) ==> Calls(t, c, d))
      && (Owes(w) && to != LaunchFailed ==> Owes(t))
  {
  }

  /** The branch that gives up a launch leaves the worker alone, and is refused for one that was reserved. */
  lemma PreemptedKeeps(w: Worker, e: Event)
    requires Unbound(w) && Token(w) && LaunchOk(w) && w.launch.Some? && e.id == Derived(ReservedEvent)
    requires e.id !in w.launch.value.events
    ensures Keeps(w, w.(launch := Some(Preempted(w.launch.value, e))))
  {
  }

  lemma RecordLaunchKeeps(w: Worker, to: LaunchStatus, e: Event)
    requires Unbound(w) && Token(w) && LaunchOk(w)
    requires PlainOp(w, OpRecordLaunch(to, e)) && to != Accepted
    requires RecordLaunch(w, to, e).Some? && Storable(RecordLaunch(w, to, e).value)
    ensures
      var t := RecordLaunch(w, to, e).value;
      && Unbound(t) && Token(t)
      && (forall c: nat, d: nat :: Calls(w, c, d) ==> Calls(t, c, d))
      && (Owes(w) && !LaunchGivenUp(w, OpRecordLaunch(to, e)) ==> Owes(t))
  {
    hide Unbound, Token, Calls, Owes, LaunchOk, Storable, LaunchRecorded;
    var a := w.launch.value;
    if to == Launching && Terminal(w.status) {
      PreemptedKeeps(w, e);
    } else if Allowed(a.status, to) {
      if to == Launched { StartedHasRun(w, e); }
      LaunchRecordedKeeps(w, a, to, e);
      LaunchShape(w, to, e);
    }
  }

  lemma PlainInv(s: Service, op: Op)
    requires Inv(s) && PlainOp(s.w, op)
    ensures Inv(Step(s, Plain(op)))
  {
    hide Unbound, Token, Calls, Owes, LaunchOk, Storable, Resumable, Advances;
    StorableStep(s.w, op);
    ResumableStep(s.w, op);
    AdvanceStep(s.w, op);
    if Update(s.w, op).Some? && Storable(Update(s.w, op).value) {
      if op.OpRecordLaunch? {
        hide RecordLaunch, LaunchGivenUp;
        RecordLaunchKeeps(s.w, op.next, op.event);
      } else if op.OpExpire? {
        hide Expire, Fires;
        ExpireKeeps(s.w, op.limit, op.at);
      } else {
        hide Update;
        PlainKeeps(s.w, op);
      }
    } else {
      hide Fires;
      FiringIsStored(s.w, op);
    }
  }

  /** The schema never stands in the way of a deadline. */
  lemma FiringIsStored(w: Worker, op: Op)
    requires Storable(w)
    ensures Fires(w, op) ==> Update(w, op).Some? && Storable(Update(w, op).value)
  {
  }

  lemma ObservedInv(s: Service, to: Outcome, result: Option<nat>, why: Option<Reason>, at: int, keep: bool)
    requires Inv(s)
    ensures Inv(Step(s, Observed(to, result, why, at, keep)))
  {
    hide Unbound, Token, Calls, Owes, LaunchOk, Storable, Resumable, Advances, Settle;
    var op := OpSettle(to, result, why, at, keep);
    StorableStep(s.w, op);
    ResumableStep(s.w, op);
    AdvanceStep(s.w, op);
    if to != Lost && Settle(s.w, to, result, why, at, keep).Some? {
      SettleKeeps(s.w, to, result, why, at, keep);
    }
  }

  /** Claiming moves the token to the claimer; answering moves it on; nobody else can hold it meanwhile. */
  lemma CancelCallInv(s: Service, a: Answer)
    requires Inv(s)
    ensures Inv(Step(s, TakeCancel)) && Inv(Step(s, CancelAnswer(a)))
  {
    hide LaunchOk, Advances, StartedMatches;
    AdvanceStep(s.w, OpClaimCancel);
    AdvanceStep(s.w, CancelOp(a));
  }

  lemma StopCallInv(s: Service, a: Answer)
    requires Inv(s)
    ensures Inv(Step(s, TakeStop)) && Inv(Step(s, StopAnswer(a)))
  {
    hide LaunchOk, Advances, StartedMatches;
    AdvanceStep(s.w, OpClaimStop);
    AdvanceStep(s.w, StopOp(a));
  }

  lemma RestartInv(s: Service)
    requires Inv(s)
    ensures Inv(Step(s, Restart)) && Inv(Step(s, OwnerLost))
  {
    hide LaunchOk, Advances, StartedMatches;
    AdvanceStep(s.w, OpRecover);
  }

  lemma RetractKeeps(w: Worker, op: Op, c: nat, d: nat)
    requires Unbound(w) && Token(w) && RetractOp(op) && Update(w, op).Some? && Calls(w, c, d)
    requires c + d > 0 ==> w.status != Canceling
    ensures Unbound(Update(w, op).value) && Token(Update(w, op).value) && Calls(Update(w, op).value, c, d)
    ensures !op.OpSettle? && Owes(w) ==> Owes(Update(w, op).value)
  {
    hide Suits, DefaultReason, Token, Unbound, Calls, Owes, Settled;
    match op
    case OpRecordTerminal(to, result, why, at) => TerminalRetractKeeps(w, result, why, at, c, d);
    case OpSettle(to, result, why, at, keep) => SettleRetractKeeps(w, result, why, at, keep, c, d);
    case OpClearCancel => ClearKeeps(w, c, d);
  }

  lemma ClearKeeps(w: Worker, c: nat, d: nat)
    requires Unbound(w) && Token(w) && Calls(w, c, d) && (c + d > 0 ==> w.status != Canceling)
    ensures Unbound(ClearCancel(w)) && Token(ClearCancel(w)) && Calls(ClearCancel(w), c, d)
    ensures Owes(w) ==> Owes(ClearCancel(w))
  {
  }

  /** A worker whose token is nowhere but in its cancellation is lost along with it. */
  lemma LostKeeps(w: Worker, result: Option<nat>, why: Option<Reason>, succeededAs: Reason, at: int, keep: bool, c: nat, d: nat)
    requires Unbound(w) && Token(w) && Calls(w, c, d) && !Terminal(w.status) && (c + d > 0 ==> w.status != Canceling)
    ensures
      var t := Settled(w, Lost, result, why, succeededAs, at, keep);
      Unbound(t) && Token(t) && Calls(t, c, d)
  {
    hide DefaultReason;
  }

  lemma TerminalRetractKeeps(w: Worker, result: Option<nat>, why: Option<Reason>, at: int, c: nat, d: nat)
    requires Unbound(w) && Token(w) && Calls(w, c, d) && RecordTerminal(w, Lost, result, why, at).Some?
    requires c + d > 0 ==> w.status != Canceling
    ensures
      var t := RecordTerminal(w, Lost, result, why, at).value;
      Unbound(t) && Token(t) && Calls(t, c, d) && (Owes(w) ==> Owes(t))
  {
    hide Settled, Suits;
    if !Terminal(w.status) {
      hide Unbound, Token, Calls, Owes;
      LostKeeps(w, result, why, if w.status == Canceling then SuccessBeforeCancellation else Success, at, false, c, d);
      EndedOwesNothing(w);
    }
  }

  lemma SettleRetractKeeps(w: Worker, result: Option<nat>, why: Option<Reason>, at: int, keep: bool, c: nat, d: nat)
    requires Unbound(w) && Token(w) && Calls(w, c, d) && Settle(w, Lost, result, why, at, keep).Some?
    requires c + d > 0 ==> w.status != Canceling
    ensures
      var t := Settle(w, Lost, result, why, at, keep).value;
      Unbound(t) && Token(t) && Calls(t, c, d)
  {
    hide Settled, Suits, Unbound, Token, Calls;
    if Terminal(w.status) { SettledLateKeeps(w, Settle(w, Lost, result, why, at, keep).value); }
    else { LostKeeps(w, result, why, SuccessBeforeCancellation, at, keep, c, d); }
  }

  lemma RetractInv(s: Service, op: Op)
    requires Inv(s) && RetractOp(op) && !Disturbs(s)
    ensures Inv(AfterRetract(s, op))
  {
    hide Unbound, Token, Owes, Calls, LaunchOk, Storable, Resumable, Advances, Update;
    StorableStep(s.w, op);
    ResumableStep(s.w, op);
    AdvanceStep(s.w, op);
    if Apply(s.w, op) != s.w { RetractKeeps(s.w, op, s.cancelCalls, s.stopCalls); }
  }

  /**
   * Taking back a cancellation keeps the lifecycle in order exactly when it does not disturb a call; if it
   * does, a second call can start at once.
   */
  lemma RetractExactly(s: Service, op: Op, reason: CancelReason, at: int)
    requires Inv(s) && RetractOp(op)
    ensures Inv(AfterRetract(s, op)) <==> !Disturbs(s)
    ensures Disturbs(s) ==>
              Step(Step(AfterRetract(s, op), Plain(OpRequestCancel(reason, at))), TakeCancel).cancelCalls == 2
  {
    if Disturbs(s) { DisturbedCall(s, op, reason, at); } else { RetractInv(s, op); }
  }

  /** The schema never stands in the way of taking a cancellation back. */
  lemma RetractIsStored(w: Worker, op: Op)
    requires Storable(w) && Resumable(w) && Token(w) && RetractOp(op) && w.status == Canceling
    ensures Update(w, op).Some? && Storable(Update(w, op).value)
  {
    hide StartedMatches;
  }

  lemma DisturbedCall(s: Service, op: Op, reason: CancelReason, at: int)
    requires Inv(s) && RetractOp(op) && Disturbs(s)
    ensures !Inv(AfterRetract(s, op))
    ensures Step(Step(AfterRetract(s, op), Plain(OpRequestCancel(reason, at))), TakeCancel).cancelCalls == 2
  {
    hide LaunchOk, StartedMatches, Unbound, Owes;
    RetractIsStored(s.w, op);
  }

  lemma StepInv(s: Service, h: Happening)
    requires Inv(s)
    ensures Inv(Step(s, h))
  {
    hide Inv, Apply, PlainOp;
    match h
    case Plain(op) => if PlainOp(s.w, op) { PlainInv(s, op); }
    case Observed(to, result, why, at, keep) => ObservedInv(s, to, result, why, at, keep);
    case TakeCancel => CancelCallInv(s, Unanswered);
    case CancelAnswer(a) => CancelCallInv(s, a);
    case TakeStop => StopCallInv(s, Unanswered);
    case StopAnswer(a) => StopCallInv(s, a);
    case OwnerLost => RestartInv(s);
    case Restart => RestartInv(s);
    case Retract(op) => if RetractOp(op) && !Disturbs(s) { RetractInv(s, op); }
  }

  /** A session as it is accepted: nothing flagged, nothing bound, at most an accepted assignment. */
  ghost predicate Fresh(s: Service) {
    && s.cancelCalls == 0 && s.stopCalls == 0 && !s.owed
    && s.w.status == Requested && s.w.run.None? && s.w.stopReason.None? && s.w.preCancel.None?
    && !s.w.cancelPending && !s.w.cancelClaimed && !s.w.stopPending && !s.w.stopClaimed
    && (s.w.launch.Some? ==>
          && s.w.launch.value.status == Accepted && s.w.launch.value.run.None?
          && forall id :: id in s.w.launch.value.events ==>
               id == Derived(AcceptedEvent) && s.w.launch.value.events[id].kind == AcceptedEvent)
  }

  lemma {:induction false} RunInv(s: Service, hs: seq<Happening>)
    requires Fresh(s)
    ensures Inv(Run(s, hs))
    decreases |hs|
  {
    if hs != [] {
      hide Inv, Step;
      RunInv(s, hs[..|hs| - 1]);
      StepInv(Run(s, hs[..|hs| - 1]), hs[|hs| - 1]);
    }
  }

  // ---------------------------------------------------------------- what holds over every run

  /** At most one of the four delivery flags is set, and at most one stop call is owned at any time. */
  lemma OneStopInFlight(s: Service, hs: seq<Happening>)
    requires Fresh(s)
    ensures
      var t := Run(s, hs);
      && Count(t.w.cancelPending) + Count(t.w.cancelClaimed) + Count(t.w.stopPending) + Count(t.w.stopClaimed) <= 1
      && t.cancelCalls + t.stopCalls <= 1
  {
    RunInv(s, hs);
  }

  /** While a call is owned neither kind of claim can be taken, so no second call starts. */
  lemma NoSecondCall(s: Service, hs: seq<Happening>)
    requires Fresh(s) && Run(s, hs).cancelCalls + Run(s, hs).stopCalls > 0
    ensures Step(Run(s, hs), TakeCancel) == Run(s, hs) && Step(Run(s, hs), TakeStop) == Run(s, hs)
  {
    RunInv(s, hs);
    hide Run;
  }

  /** A deadline that fires on a worker that may be executing leaves a stop somebody still has to make. */
  lemma DeadlineLeavesStop(s: Service, hs: seq<Happening>, op: Op)
    requires Fresh(s) && Fires(Run(s, hs).w, op)
    ensures Step(Run(s, hs), Plain(op)).owed && Owes(Step(Run(s, hs), Plain(op)).w)
  {
    RunInv(s, hs);
    PlainInv(Run(s, hs), op);
    hide Run, Apply, Owes, Fires;
  }

  predicate Discharges(w: Worker, h: Happening) {
    || h.Observed?
    || (h.CancelAnswer? && h.answer != Unanswered)
    || (h.StopAnswer? && h.answer != Unanswered)
    || (h.Plain? && LaunchGivenUp(w, h.op))
    || (h.Retract? && h.op.OpSettle?)
  }

  /**
   * It stays on record through everything, until a stop is delivered or refused as unsupported, the launch
   * fails or the provider is seen to have finished.
   */
  lemma {:induction false} OwedUntilDischarged(s: Service, hs: seq<Happening>, n: nat)
    requires Fresh(s) && n <= |hs| && Run(s, hs[..n]).owed
    requires forall i :: n <= i < |hs| ==> !Discharges(Run(s, hs[..i]).w, hs[i])
    ensures Run(s, hs).owed && Owes(Run(s, hs).w)
    decreases |hs|
  {
    RunInv(s, hs);
    if n == |hs| {
      assert hs[..n] == hs;
    } else {
      var before := hs[..|hs| - 1];
      assert forall i | 0 <= i <= |before| :: before[..i] == hs[..i];
      assert before[..n] == hs[..n];
      OwedUntilDischarged(s, before, n);
      assert before == hs[..|hs| - 1];
      assert !Discharges(Run(s, before).w, hs[|hs| - 1]);
      hide Apply, Inv, Owes, Fires, LaunchGivenUp, PlainOp;
    }
  }

  /** What the next sweep of the service will pick up. */
  predicate InSweep(w: Worker) {
    (w.reconcilePending || w.stopPending) && w.run.Some?
  }

  /** However the last server ended, the next one finds every owed stop pending and able to be claimed. */
  lemma RestartRecoversOwedStops(s: Service, hs: seq<Happening>)
    requires Fresh(s) && Run(s, hs).owed
    ensures
      var t := Step(Run(s, hs), Restart);
      && t.w.stopPending && !t.w.stopClaimed && !t.w.cancelClaimed
      && (t.w.run.Some? ==> InSweep(t.w) && Step(t, TakeStop).stopCalls == 1)
      && (t.w.run.None? ==> IsLaunching(t.w))
  {
    RunInv(s, hs);
    RestartInv(Run(s, hs));
    hide Run, LaunchOk;
  }

  lemma CancelingRefusesResult(w: Worker, succeeded: bool, value: nat, at: int)
    requires Token(w) && w.status == Canceling
    ensures Apply(w, OpRecordResult(succeeded, value, at)) == w
  {
    hide StartedMatches;
  }

  /** A result for a worker that is being cancelled is refused: its stop reason is still the cancellation. */
  lemma ResultRefusedWhileCanceling(s: Service, hs: seq<Happening>, succeeded: bool, value: nat, at: int)
    requires Fresh(s) && Run(s, hs).w.status == Canceling
    ensures Apply(Run(s, hs).w, OpRecordResult(succeeded, value, at)) == Run(s, hs).w
  {
    hide Run, Apply, Token;
    RunInv(s, hs);
    CancelingRefusesResult(Run(s, hs).w, succeeded, value, at);
  }

  /** In general it is written exactly when the stop reason on record fits the new status. */
  lemma ResultAccepted(w: Worker, succeeded: bool, value: nat, at: int)
    requires Storable(w) && !Terminal(w.status)
    ensures
      var to := if succeeded then Succeeded else Failed;
      Apply(w, OpRecordResult(succeeded, value, at)).status == to
      <==> w.stopReason.None? || Suits(to, w.stopReason.value)
  {
  }

  /** A cancellation the backend rejects leaves no trace, except that an earlier stop reason is lost. */
  lemma UnsupportedCancellation(w: Worker, reason: CancelReason, at: int)
    requires Storable(w) && !Terminal(w.status) && w.status != Canceling && w.run.Some?
    requires Token(w) && w.preCancel.None?
    ensures Apply(Apply(Apply(w, OpRequestCancel(reason, at)), OpClaimCancel), OpCancelUnsupported)
            == w.(stopReason := None)
  {
    hide StartedMatches;
    var asked := w.(status := Canceling, stopReason := Some(Cancellation(reason)), preCancel := Some(w.status),
                    cancelPending := true);
    assert Apply(w, OpRequestCancel(reason, at)) == asked;
    assert Apply(asked, OpClaimCancel) == asked.(cancelPending := false, cancelClaimed := true);
  }

  // ---------------------------------------------------------------- what each operation does

  /** The start-up sweep loses exactly the running workers without a live process, and touches nothing else. */
  predicate Swept(w: Worker, t: Worker, alive: bool, at: int) {
    if w.status == Running && (w.pid.None? || !alive) then
      t == w.(status := UnknownOutcome, completedAt := Some(at))
    else t == w
  }

  lemma SweepMeans(w: Worker, alive: bool, at: int)
    requires Storable(w)
    ensures Swept(w, Apply(w, OpReconcile(alive, at)), alive, at)
  {
  }

  /** A cancellation of a worker that is still open ends it at once, or is put on record for delivery. */
  lemma RequestMeans(w: Worker, reason: CancelReason, at: int)
    ensures
      var t := Update(w, OpRequestCancel(reason, at)).value;
      var started := w.run.Some? || (w.launch.Some? && w.launch.value.status == Launching);
      && Update(w, OpRequestCancel(reason, at)).Some?
      && (w.status in {Succeeded, Failed, Canceled, Canceling} ==> t == w)
      && (w.status in {Requested, Running, UnknownOutcome} ==>
            && t.stopReason == Some(Cancellation(reason)) && t.run == w.run && t.launch == w.launch && t.result == w.result
            && (started ==> t.status == Canceling && t.cancelPending && t.preCancel == Some(w.status) && t.completedAt == w.completedAt)
            && (!started ==> t.status == Canceled && t.completedAt == Some(at) && t.cancelPending == w.cancelPending)
            && t.cancelClaimed == w.cancelClaimed && t.stopPending == w.stopPending)
  {
  }

  /** Only the delivery flags of the cancellation change. */
  predicate CancelFlagsOnly(w: Worker, t: Worker) {
    t == w.(cancelPending := t.cancelPending, cancelClaimed := t.cancelClaimed, cancelDelivered := t.cancelDelivered)
  }

  predicate StopFlagsOnly(w: Worker, t: Worker) {
    t == w.(stopPending := t.stopPending, stopClaimed := t.stopClaimed, stopUnsupported := t.stopUnsupported)
  }

  predicate Late(w: Worker) { w.status == Failed && w.stopReason == Some(Failure(DeadlineExceeded)) }

  /** A claim takes what is pending, once; giving it back leaves the stop to be made again, as a cancellation or as a late stop. */
  lemma ClaimsMean(w: Worker)
    ensures
      var t := Update(w, OpClaimCancel).value;
      && CancelFlagsOnly(w, t) && t.cancelDelivered == w.cancelDelivered
      && (w.cancelPending && !w.cancelClaimed ==> !t.cancelPending && t.cancelClaimed)
      && (!w.cancelPending || w.cancelClaimed ==> t == w)
    ensures
      var t := Update(w, OpClaimStop).value;
      && StopFlagsOnly(w, t) && t.stopUnsupported == w.stopUnsupported
      && (w.stopPending && !w.stopClaimed ==> !t.stopPending && t.stopClaimed)
      && (!w.stopPending || w.stopClaimed ==> t == w)
    ensures
      var t := Update(w, OpReleaseCancel).value;
      && t == w.(cancelPending := t.cancelPending, cancelClaimed := false, stopPending := t.stopPending)
      && (w.status == Canceling ==> t.cancelPending && t.stopPending == w.stopPending)
      && (Late(w) && w.run.Some? ==> t.stopPending && t.cancelPending == w.cancelPending)
      && (w.status != Canceling && !(Late(w) && w.run.Some?) ==> t == w.(cancelClaimed := false))
    ensures
      var t := Update(w, OpReleaseStop).value;
      StopFlagsOnly(w, t) && !t.stopClaimed && t.stopPending == (w.stopPending || w.run.Some?) && t.stopUnsupported == w.stopUnsupported
  {
  }

  /** A delivered stop, or one the backend cannot make, is over; only a delivered cancellation is remembered as such. */
  lemma AnswersMean(w: Worker)
    ensures
      var t := Update(w, OpCancelDelivered).value;
      && !t.cancelPending && !t.cancelClaimed && t.cancelDelivered && !t.stopPending && !t.stopClaimed
      && t == w.(cancelPending := false, cancelClaimed := false, cancelDelivered := true, stopPending := false, stopClaimed := false)
    ensures
      var t := Update(w, OpStopDelivered).value;
      StopFlagsOnly(w, t) && !t.stopPending && !t.stopClaimed && !t.stopUnsupported
    ensures
      var t := Update(w, OpStopUnsupported).value;
      StopFlagsOnly(w, t) && !t.stopPending && !t.stopClaimed && t.stopUnsupported
  {
  }

  /** A cancellation that the backend cannot make is taken back, unless the worker has ended meanwhile. */
  lemma UnsupportedMeans(w: Worker)
    ensures
      var t := Update(w, OpCancelUnsupported).value;
      && !t.cancelPending && !t.cancelClaimed && t.run == w.run && t.launch == w.launch && t.result == w.result
      && t.completedAt == w.completedAt && t.cancelDelivered == w.cancelDelivered
      && (w.status == Canceling ==>
            && t.status == (if w.preCancel.Some? then w.preCancel.value else Requested) && t.stopReason.None? && t.preCancel.None?
            && t.stopPending == w.stopPending && t.stopUnsupported == w.stopUnsupported)
      && (Late(w) ==> t.stopUnsupported && !t.stopPending && !t.stopClaimed)
      && (w.status != Canceling ==> t.status == w.status && t.stopReason == w.stopReason && t.preCancel == w.preCancel)
      && (w.status != Canceling && !Late(w) ==> CancelFlagsOnly(w, t))
    ensures
      var t := Update(w, OpClearCancel).value;
      if w.status == Canceling then
        && t.status == (if w.preCancel.Some? then w.preCancel.value else Requested) && t.stopReason.None? && t.preCancel.None?
        && !t.cancelPending && !t.cancelClaimed && !t.cancelDelivered && StopFlagsOnly(w, t.(status := w.status,
             stopReason := w.stopReason, preCancel := w.preCancel, cancelPending := w.cancelPending,
             cancelClaimed := w.cancelClaimed, cancelDelivered := w.cancelDelivered))
      else t == w
  {
  }

  /** What a starting server does with a claim of its predecessor: the stop is pending again, for whoever has a run. */
  lemma RecoveryMeans(w: Worker)
    ensures
      var t := Update(w, OpRecover).value;
      && !t.cancelClaimed && !t.stopClaimed
      && t == w.(status := t.status, cancelClaimed := false, stopClaimed := false, cancelPending := t.cancelPending, stopPending := t.stopPending)
      && (w.cancelClaimed && w.status == UnknownOutcome ==> t.status == Canceling)
      && (!w.cancelClaimed || w.status != UnknownOutcome ==> t.status == w.status)
      && (w.cancelClaimed && w.run.Some? && w.status in {Requested, Running, Canceling, UnknownOutcome} ==> t.cancelPending)
      && (t.cancelPending && !w.cancelPending ==> w.cancelClaimed && w.run.Some? && t.status !in {Succeeded, Failed, Canceled})
      && ((w.stopClaimed || (w.cancelClaimed && Late(w))) && w.run.Some? ==> t.stopPending)
      && (t.stopPending && !w.stopPending ==> w.run.Some? && (w.stopClaimed || (w.cancelClaimed && Late(w))))
  {
  }

  /** The reason that goes with an ending when nobody gives one. */
  ghost predicate PlainReason(w: Worker, t: Worker, to: Outcome, duringCancel: bool) {
    && (to.Finished? ==> t.stopReason == Some(if duringCancel then SuccessBeforeCancellation else Success))
    && (to.Broke? ==> t.stopReason == Some(Failure(ExecutionError)))
    && (to.Stopped? ==> t.stopReason == if w.stopReason.Some? then w.stopReason else Some(Cancellation(UserRequested)))
    && (to.Lost? ==> t.stopReason.None?)
  }

  /** The worker has ended so, and its cancellation with it. */
  ghost predicate EndsSo(w: Worker, t: Worker, to: Outcome, result: Option<nat>, why: Option<Reason>, at: int, duringCancel: bool) {
    && (to.Finished? ==> t.status == Succeeded) && (to.Broke? ==> t.status == Failed)
    && (to.Stopped? ==> t.status == Canceled) && (to.Lost? ==> t.status == UnknownOutcome)
    && t.completedAt == Some(at) && !t.cancelPending && !t.cancelClaimed && t.preCancel.None?
    && (result.Some? ==> t.result == result) && (result.None? ==> t.result == w.result)
    && (why.Some? ==> t.stopReason == why) && (why.None? ==> PlainReason(w, t, to, duringCancel))
    && t.run == w.run && t.launch == w.launch && t.stopPending == w.stopPending && t.stopClaimed == w.stopClaimed
    && t.pid == w.pid && t.deadline == w.deadline && t.cancelDelivered == w.cancelDelivered
  }

  /** A reason that does not go with the ending is refused. */
  ghost predicate Mismatched(to: Outcome, why: Option<Reason>) {
    why.Some? &&
      match to
      case Finished => !why.value.Success? && !why.value.SuccessBeforeCancellation?
      case Broke => !why.value.Failure?
      case Stopped => !why.value.Cancellation?
      case Lost => false
  }

  lemma MismatchMeans(to: Outcome, why: Option<Reason>)
    ensures Mismatched(to, why) <==> why.Some? && !Suits(StatusOf(to), why.value)
  {
  }

  lemma SettledEnds(w: Worker, to: Outcome, result: Option<nat>, why: Option<Reason>, at: int, keep: bool, duringCancel: bool)
    ensures
      var t := Settled(w, to, result, why, if duringCancel then SuccessBeforeCancellation else Success, at, keep);
      EndsSo(w, t, to, result, why, at, duringCancel) && t.reconcilePending == keep
  {
  }

  lemma TerminalMeans(w: Worker, to: Outcome, result: Option<nat>, why: Option<Reason>, at: int)
    ensures
      var u := Update(w, OpRecordTerminal(to, result, why, at));
      && (u.None? <==> Mismatched(to, why))
      && (u.Some? && w.status in {Succeeded, Failed, Canceled} ==>
            u.value == w.(result := if w.result.None? then result else w.result, reconcilePending := false))
      && (u.Some? && w.status !in {Succeeded, Failed, Canceled} ==>
            EndsSo(w, u.value, to, result, why, at, w.status == Canceling) && !u.value.reconcilePending)
  {
    hide Settled, EndsSo, Mismatched, Suits, StatusOf;
    MismatchMeans(to, why);
    SettledEnds(w, to, result, why, at, false, w.status == Canceling);
  }

  /**
   * A provider observation ends a worker that is being canceled; it only adds to one that has ended, whose result
   * it replaces while the provider is still being asked; and it leaves every other one alone.
   */
  lemma SettleMeans(w: Worker, to: Outcome, result: Option<nat>, why: Option<Reason>, at: int, keep: bool)
    ensures
      var u := Update(w, OpSettle(to, result, why, at, keep));
      && (u.None? <==> Mismatched(to, why))
      && (u.Some? && w.status == Canceling ==>
            EndsSo(w, u.value, to, result, why, at, true) && u.value.reconcilePending == keep)
      && (u.Some? && w.status in {Succeeded, Failed, Canceled} ==>
            && u.value == w.(result := u.value.result, reconcilePending := keep && w.reconcilePending,
                             cancelPending := false, cancelClaimed := false)
            && (result.Some? && (w.result.None? || w.reconcilePending) ==> u.value.result == result)
            && (result.None? || (w.result.Some? && !w.reconcilePending) ==> u.value.result == w.result))
      && (u.Some? && w.status in {Requested, Running, UnknownOutcome} ==> u.value == w)
  {
    hide Settled, EndsSo, Mismatched, Suits, StatusOf;
    MismatchMeans(to, why);
    SettledEnds(w, to, result, why, at, keep, true);
  }

  /** A deadline that has passed fails an open worker, and asks for a stop of one that may be executing. */
  lemma ExpiryMeans(w: Worker, given: Option<int>, at: int)
    ensures
      var t := Update(w, OpExpire(given, at)).value;
      var deadline := if given.Some? then given else w.deadline;
      && t.deadline == deadline && t.run == w.run && t.launch == w.launch && t.result == w.result
      && t.cancelClaimed == w.cancelClaimed && t.stopClaimed == w.stopClaimed
      && if w.status in {Succeeded, Failed, Canceled} || deadline.None? || deadline.value > at then t == w.(deadline := deadline)
         else
           && t.status == Failed && t.stopReason == Some(Failure(DeadlineExceeded)) && t.completedAt == Some(at)
           && !t.cancelPending && t.preCancel.None?
           && var started := w.run.Some? || (w.launch.Some? && w.launch.value.status == Launching);
              && t.reconcilePending == (w.reconcilePending || started)
              && t.stopPending == (w.stopPending || (started && !w.cancelClaimed && !w.cancelDelivered))
  {
    hide StopArmed, PastDeadline;
    DeadlineMeans(w.(deadline := if given.Some? then given else w.deadline), at);
  }

  lemma DeadlineMeans(w: Worker, at: int)
    ensures
      var t := PastDeadline(StopArmed(w), at);
      var started := w.run.Some? || (w.launch.Some? && w.launch.value.status == Launching);
      && t == w.(status := Failed, stopReason := Some(Failure(DeadlineExceeded)), completedAt := Some(at), cancelPending := false,
                 preCancel := None, reconcilePending := w.reconcilePending || started,
                 stopPending := w.stopPending || (started && !w.cancelClaimed && !w.cancelDelivered))
  {
  }

  /** Recording a result ends an open worker with it; an ended one accepts only the same again. */
  lemma ResultMeans(w: Worker, succeeded: bool, value: nat, at: int)
    ensures
      var u := Update(w, OpRecordResult(succeeded, value, at));
      if w.status in {Succeeded, Failed, Canceled} then
        (u.Some? <==> w.result == Some(value) && (w.status == Succeeded <==> succeeded) && w.status != Canceled)
        && (u.Some? ==> u.value == w)
      else
        && u.Some? && u.value.result == Some(value) && u.value.completedAt == Some(at)
        && (succeeded ==> u.value.status == Succeeded) && (!succeeded ==> u.value.status == Failed)
        && u.value == w.(status := u.value.status, result := Some(value), completedAt := Some(at))
  {
  }

  /** A run and a deadline are recorded for open workers only, and another run is refused. */
  lemma BindingMeans(w: Worker, run: nat, execution: Option<nat>, at: int)
    ensures
      var u := Update(w, OpBindRun(run, execution));
      && (u.None? <==> w.status in {Succeeded, Failed, Canceled} || (w.run.Some? && w.run != Some(run)))
      && (u.Some? ==>
            && u.value.run == Some(run) && u.value == w.(run := Some(run), status := u.value.status, pid := u.value.pid)
            && (execution.Some? && w.status in {Requested, Running} ==> u.value.status == Running && u.value.pid == execution)
            && (execution.None? || w.status in {Canceling, UnknownOutcome} ==> u.value.status == w.status && u.value.pid == w.pid))
    ensures
      var u := Update(w, OpSetDeadline(at));
      if w.status in {Succeeded, Failed, Canceled} then u.None? else u == Some(w.(deadline := Some(at)))
  {
  }

  /** Which ending a delivered result gives: the worker's own claim of it. */
  ghost predicate ClaimedSo(t: Worker, c: Claim) {
    && (c.ClaimSucceeded? ==> t.status == Succeeded && t.stopReason == Some(Success))
    && (c.ClaimCancelled? ==> t.status == Canceled && t.stopReason == Some(Cancellation(UserRequested)))
    && (c.ClaimMalformed? ==> t.status == Failed && t.stopReason == Some(Failure(ArtifactError)))
    && (c.ClaimFailed? ==> t.status == Failed && t.stopReason == Some(Failure(ExecutionError)))
  }

  /** A result is captured once, for the run that was launched, and ends a worker that is still open. */
  lemma CaptureMeans(w: Worker, d: Delivery)
    ensures
      var u := Update(w, OpCapture(d));
      var fits := d.matches && w.launch.Some? && w.launch.value.run == Some(d.run) && w.launch.value.status == Launched;
      && (u.Some? <==> fits && (w.launch.value.captured.None? || w.launch.value.captured == Some(d.fingerprint)))
      && (u.Some? && w.launch.value.captured.Some? ==> u.value == w)
      && (u.Some? && w.launch.value.captured.None? ==>
            && u.value.launch == Some(w.launch.value.(captured := Some(d.fingerprint))) && u.value.run == w.run
            && u.value.cancelClaimed == w.cancelClaimed && u.value.stopPending == w.stopPending && u.value.stopClaimed == w.stopClaimed
            && if w.status in {Succeeded, Failed, Canceled} then u.value == w.(launch := u.value.launch)
               else
                 && ClaimedSo(u.value, d.claim) && u.value.result == Some(d.fingerprint) && u.value.completedAt == Some(d.at)
                 && !u.value.cancelPending && !u.value.reconcilePending && u.value.preCancel.None?)
  {
    hide StartedMatches;
  }

  /** An event that the table of transitions allows moves the assignment on and is kept; a run of it becomes the worker's. */
  lemma LaunchMeans(w: Worker, to: LaunchStatus, e: Event)
    requires to != Accepted && w.launch.Some? && !(to == Launching && w.status in {Succeeded, Failed, Canceled})
    requires to == Launching <==> e.kind == ReservedEvent
    requires to == Launched <==> e.kind == StartedEvent
    requires to == LaunchFailed <==> e.kind == FailedEvent
    requires e.id in w.launch.value.events ==> w.launch.value.events[e.id] == e
    requires e.run.Some? && w.run.Some? ==> e.run == w.run
    ensures
      var u := Update(w, OpRecordLaunch(to, e));
      var from := w.launch.value.status;
      var moves := (from == Accepted && to in {Launching, LaunchFailed}) || (from == Launching && to in {Launched, LaunchFailed});
      && u.Some? && (!moves ==> u.value == w)
      && (moves ==>
            && u.value.launch.Some? && u.value.launch.value.status == to && u.value.run == (if e.run.Some? then e.run else w.run)
            && u.value.launch.value.events == w.launch.value.events[e.id := e]
            && u.value.launch.value.captured == w.launch.value.captured
            && (e.run.Some? ==> u.value.launch.value.run == e.run) && (e.run.None? ==> u.value.launch.value.run == w.launch.value.run))
  {
    hide LaunchRecorded, Logged, Preempted;
    RecordedMeans(w, w.launch.value, to, e);
  }

  lemma RecordedMeans(w: Worker, a: Assignment, to: LaunchStatus, e: Event)
    requires e.id in a.events ==> a.events[e.id] == e
    ensures
      var t := LaunchRecorded(w, a, to, e);
      && t.launch == Some(Assignment(to, if e.run.Some? then e.run else a.run, a.events[e.id := e], a.captured))
      && t.run == (if e.run.Some? then e.run else w.run)
  {
    assert e.id in a.events ==> a.events == a.events[e.id := e];
    hide Terminal;
  }

  /** A launch that fails ends an open worker; one that starts for a worker that has ended is to be stopped. */
  lemma LaunchEndsMean(w: Worker, to: LaunchStatus, e: Event)
    requires w.launch.Some? && w.launch.value.status == Launching && e.id !in w.launch.value.events
    requires e.run.Some? && w.run.Some? ==> e.run == w.run
    ensures to == Launched && e.kind == StartedEvent && e.run.Some? ==>
      var t := Update(w, OpRecordLaunch(to, e)).value;
      && t.status == w.status && t.result == w.result && t.stopReason == w.stopReason
      && (w.status in {Succeeded, Failed, Canceled} ==> t.stopPending && t.reconcilePending)
      && (w.status !in {Succeeded, Failed, Canceled} ==> t.stopPending == w.stopPending && t.reconcilePending == w.reconcilePending)
  {
    hide StartedMatches, Logged, Preempted;
  }

  lemma LaunchFailureMeans(w: Worker, to: LaunchStatus, e: Event)
    requires w.launch.Some? && w.launch.value.status == Launching && e.id !in w.launch.value.events
    requires e.run.Some? && w.run.Some? ==> e.run == w.run
    ensures to == LaunchFailed && e.kind == FailedEvent ==>
      var t := Update(w, OpRecordLaunch(to, e)).value;
      && !t.cancelPending && !t.cancelClaimed && !t.stopPending && !t.stopClaimed && !t.reconcilePending && t.preCancel.None?
      && (w.status in {Succeeded, Failed, Canceled} ==> t.status == w.status && t.stopReason == w.stopReason && t.result == w.result)
      && (w.status !in {Succeeded, Failed, Canceled} ==>
            && t.status == Failed && t.stopReason == Some(Failure(LaunchError)) && t.completedAt == Some(e.at)
            && t.result.Some? && (e.error.Some? ==> t.result == e.error))
  {
    hide StartedMatches;
  }

  /** What is refused: the wrong kind of event, another event under the same id, and another run. */
  lemma LaunchRefused(w: Worker, to: LaunchStatus, e: Event)
    requires to != Accepted && !(to == Launching && w.status in {Succeeded, Failed, Canceled})
    ensures
      var kind := match to case Accepted => AcceptedEvent case Launching => ReservedEvent case Launched => StartedEvent
                  case LaunchFailed => FailedEvent;
      Update(w, OpRecordLaunch(to, e)).None? <==>
        || w.launch.None? || e.kind != kind
        || (e.id in w.launch.value.events && w.launch.value.events[e.id] != e)
        || (e.run.Some? && w.run.Some? && w.run != e.run
            && ((w.launch.value.status == Accepted && to in {Launching, LaunchFailed})
                || (w.launch.value.status == Launching && to in {Launched, LaunchFailed})))
  {
    hide StartedMatches;
  }

  /** An event for a worker that has ended gives its assignment up, unless its id is known; the worker stays. */
  lemma PreemptionMeans(w: Worker, e: Event)
    requires w.launch.Some? && w.status in {Succeeded, Failed, Canceled}
    ensures
      var u := Update(w, OpRecordLaunch(Launching, e));
      && (u.None? <==> e.id in w.launch.value.events)
      && (u.Some? ==>
            && u.value == w.(launch := u.value.launch) && u.value.launch.Some? && u.value.launch.value.status == LaunchFailed
            && u.value.launch.value.run == w.launch.value.run
            && u.value.launch.value.events == w.launch.value.events[e.id := Event(e.id, FailedEvent, e.at, e.run, e.error)])
  {
    hide StartedMatches;
  }

  /** A stop that is pending for a worker with a run can be called, and the claim is then the caller's. */
  lemma TakingMeans(s: Service)
    requires Inv(s)
    ensures s.w.run.Some? && s.w.cancelPending && !s.w.cancelClaimed ==>
              var t := Step(s, TakeCancel);
              t.cancelCalls == s.cancelCalls + 1 && t.w.cancelClaimed && !t.w.cancelPending && t.owed == s.owed
    ensures s.w.run.Some? && s.w.stopPending && !s.w.stopClaimed ==>
              var t := Step(s, TakeStop);
              t.stopCalls == s.stopCalls + 1 && t.w.stopClaimed && !t.w.stopPending && t.owed == s.owed
  {
    hide LaunchOk, StartedMatches;
  }

  /** Its answer ends the call; without one the stop is pending again. */
  lemma AnsweringMeans(s: Service)
    requires Inv(s)
    ensures s.cancelCalls > 0 ==>
              && Step(s, CancelAnswer(Delivered)).w.cancelDelivered && Step(s, CancelAnswer(Delivered)).cancelCalls == s.cancelCalls - 1
              && !Step(s, CancelAnswer(Delivered)).owed && Step(s, CancelAnswer(Unanswered)).owed == s.owed
              && !Step(s, CancelAnswer(Unanswered)).w.cancelClaimed
              && (s.w.status == Canceling ==> Step(s, CancelAnswer(Unanswered)).w.cancelPending)
    ensures s.stopCalls > 0 ==>
              && Step(s, StopAnswer(Delivered)).stopCalls == s.stopCalls - 1 && !Step(s, StopAnswer(Delivered)).owed
              && Step(s, StopAnswer(Unsupported)).w.stopUnsupported
              && Step(s, StopAnswer(Unanswered)).owed == s.owed && Step(s, StopAnswer(Unanswered)).w.stopPending
  {
    hide LaunchOk, StartedMatches;
  }

  /** A deadline of a worker that may be executing is owed a stop; a crash or restart ends calls, but not what is owed. */
  lemma DebtMeans(s: Service, given: Option<int>, at: int)
    requires Inv(s)
    ensures
      var deadline := if given.Some? then given else s.w.deadline;
      var started := s.w.run.Some? || (s.w.launch.Some? && s.w.launch.value.status == Launching);
      s.w.status !in {Succeeded, Failed, Canceled} && deadline.Some? && deadline.value <= at && started && !s.w.cancelDelivered ==>
        Step(s, Plain(OpExpire(given, at))).owed && Step(s, Plain(OpExpire(given, at))).w.status == Failed
    ensures Step(s, Restart).cancelCalls == 0 && Step(s, Restart).stopCalls == 0 && Step(s, Restart).owed == s.owed
    ensures Step(s, OwnerLost).w == s.w && Step(s, OwnerLost).cancelCalls + Step(s, OwnerLost).stopCalls == 0
  {
    hide LaunchOk, StartedMatches;
  }

  // ---------------------------------------------------------------- the updates, step by step

  /** A worker as an operation finds it after loading the state: an object whose fields it changes in place. */
  class Loaded {
    var status: Status
    var pid: Option<nat>
    var run: Option<nat>
    var result: Option<nat>
    var stopReason: Option<Reason>
    var completedAt: Option<int>
    var preCancel: Option<Status>
    var deadline: Option<int>
    var reconcilePending: bool
    var cancelPending: bool
    var cancelClaimed: bool
    var cancelDelivered: bool
    var stopPending: bool
    var stopClaimed: bool
    var stopUnsupported: bool
    var launch: Option<Assignment>

    function View(): Worker
      reads this
    {
      Worker(status, pid, run, result, stopReason, completedAt, preCancel, deadline, reconcilePending,
             cancelPending, cancelClaimed, cancelDelivered, stopPending, stopClaimed, stopUnsupported, launch)
    }

    constructor (w: Worker)
      ensures View() == w
    {
      status, pid, run, result := w.status, w.pid, w.run, w.result;
      stopReason, completedAt, preCancel, deadline := w.stopReason, w.completedAt, w.preCancel, w.deadline;
      reconcilePending, cancelPending, cancelClaimed := w.reconcilePending, w.cancelPending, w.cancelClaimed;
      cancelDelivered, stopPending, stopClaimed := w.cancelDelivered, w.stopPending, w.stopClaimed;
      stopUnsupported, launch := w.stopUnsupported, w.launch;
    }

    predicate Launches()
      reads this
    {
      launch.Some? && launch.value.status == Launching
    }

    method RequestCancellation(reason: CancelReason, at: int) returns (claimed: bool, local: bool)
      modifies this
      ensures View() == RequestCancel(old(View()), reason, at)
      ensures claimed <==> !Terminal(old(status)) && old(status) != Canceling
      ensures local <==> claimed && status == Canceled
    {
      if Terminal(status) || status == Canceling { return false, false; }
      if run.None? && !Launches() {
        status := Canceled;
        completedAt := Some(at);
        stopReason := Some(Cancellation(reason));
        return true, true;
      }
      preCancel := Some(status);
      status := Canceling;
      cancelPending := true;
      stopReason := Some(Cancellation(reason));
      return true, false;
    }

    method ReleaseCancellation()
      modifies this
      ensures View() == ReleaseCancel(old(View()))
    {
      cancelClaimed := false;
      if status == Canceling {
        cancelPending := true;
      } else if status == Failed && stopReason == Some(Failure(DeadlineExceeded)) && run.Some? {
        stopPending := true;
      }
    }

    method StopRefused()
      modifies `stopPending, `stopClaimed, `stopUnsupported
      ensures View() == StopUnsupported(old(View()))
    {
      stopPending := false;
      stopClaimed := false;
      stopUnsupported := true;
    }

    method WithdrawCancellation()
      modifies `status, `preCancel, `stopReason
      ensures View() == CancelWithdrawn(old(View()))
    {
      status := if preCancel.Some? then preCancel.value else Requested;
      preCancel := None;
      stopReason := None;
    }

    method CancellationUnsupported()
      modifies this
      ensures View() == CancelUnsupported(old(View()))
    {
      hide StopUnsupported, CancelWithdrawn;
      cancelPending := false;
      cancelClaimed := false;
      if status == Failed && stopReason == Some(Failure(DeadlineExceeded)) {
        StopRefused();
      } else if status == Canceling {
        WithdrawCancellation();
      }
    }

    method RecoverClaims()
      modifies this
      ensures View() == Recovered(old(View()))
    {
      if cancelClaimed {
        cancelClaimed := false;
        if status == UnknownOutcome { status := Canceling; }
        if run.Some? && !Terminal(status) {
          cancelPending := true;
        } else if run.Some? && status == Failed && stopReason == Some(Failure(DeadlineExceeded)) {
          stopPending := true;
        }
      }
      if stopClaimed {
        stopClaimed := false;
        if run.Some? { stopPending := true; }
      }
    }

    method SettleLate(observed: Option<nat>, keep: bool)
      modifies `result, `reconcilePending, `cancelPending, `cancelClaimed
      ensures cancelPending == cancelClaimed == false
      ensures reconcilePending == (keep && old(reconcilePending))
      ensures result == if observed.Some? && (old(result).None? || old(reconcilePending)) then observed else old(result)
    {
      var wasPending := reconcilePending;
      if observed.Some? && (result.None? || reconcilePending) { result := observed; }
      reconcilePending := keep && wasPending;
      cancelPending := false;
      cancelClaimed := false;
    }

    method ReasonFor(to: Outcome, why: Option<Reason>) returns (reason: Option<Reason>)
      ensures reason == if why.Some? then why else DefaultReason(View(), to, SuccessBeforeCancellation)
    {
      reason := why;
      if reason.None? && to == Finished { reason := Some(SuccessBeforeCancellation); }
      if reason.None? && to == Stopped {
        reason := if stopReason.Some? then stopReason else Some(Cancellation(UserRequested));
      }
      if reason.None? && to == Broke { reason := Some(Failure(ExecutionError)); }
    }

    method ForgetCancellation()
      modifies `cancelPending, `cancelClaimed, `preCancel
      ensures View() == CancellationOver(old(View()))
    {
      cancelPending := false;
      cancelClaimed := false;
      preCancel := None;
    }

    method SettleNow(to: Outcome, observed: Option<nat>, why: Option<Reason>, at: int, keep: bool)
      modifies this
      ensures View() == Settled(old(View()), to, observed, why, SuccessBeforeCancellation, at, keep)
    {
      var reason := ReasonFor(to, why);
      hide DefaultReason;
      ForgetCancellation();
      status := StatusOf(to);
      completedAt := Some(at);
      reconcilePending := keep;
      if observed.Some? { result := observed; }
      stopReason := reason;
    }

    method SettleCancellation(to: Outcome, observed: Option<nat>, why: Option<Reason>, at: int, keep: bool)
      returns (accepted: bool, claimed: bool)
      modifies this
      ensures accepted <==> Settle(old(View()), to, observed, why, at, keep).Some?
      ensures accepted ==> View() == Settle(old(View()), to, observed, why, at, keep).value
      ensures claimed <==> accepted && old(status) == Canceling
    {
      hide Suits, Settled;
      if why.Some? && !Suits(StatusOf(to), why.value) { return false, false; }
      if Terminal(status) {
        SettleLate(observed, keep);
        return true, false;
      }
      if status != Canceling { return true, false; }
      SettleNow(to, observed, why, at, keep);
      return true, true;
    }

    method ArmStop()
      modifies `reconcilePending, `stopPending
      ensures View() == StopArmed(old(View()))
    {
      if run.Some? || Launches() {
        reconcilePending := true;
        if !cancelClaimed && !cancelDelivered { stopPending := true; }
      }
    }

    method TimeOut(at: int)
      modifies `status, `stopReason, `completedAt, `cancelPending, `preCancel
      ensures View() == PastDeadline(old(View()), at)
    {
      status := Failed;
      stopReason := Some(Failure(DeadlineExceeded));
      completedAt := Some(at);
      cancelPending := false;
      preCancel := None;
    }

    method ExpireNow(given: Option<int>, at: int) returns (claimed: bool)
      modifies this
      ensures View() == Expire(old(View()), given, at)
      ensures claimed <==> Overdue(old(View()), given, at)
    {
      hide Terminal, StopArmed, PastDeadline;
      if given.Some? { deadline := given; }
      if Terminal(status) || deadline.None? || deadline.value > at { return false; }
      ArmStop();
      TimeOut(at);
      return true;
    }

    method BindLaunched(e: Event)
      modifies `run, `reconcilePending, `stopPending
      ensures View() == LaunchBound(old(View()), e)
    {
      if e.run.Some? {
        run := e.run;
        if Terminal(status) {
          reconcilePending := true;
          stopPending := true;
        }
      }
    }

    method FailLaunch(e: Event)
      modifies `status, `completedAt, `stopReason, `result
      ensures View() == LaunchFails(old(View()), e)
    {
      if !Terminal(status) {
        status := Failed;
        completedAt := Some(e.at);
        stopReason := Some(Failure(LaunchError));
        result := Some(if e.error.Some? then e.error.value else 0);
      }
    }

    method ForgetDelivery()
      modifies `preCancel, `cancelPending, `cancelClaimed, `reconcilePending, `stopPending, `stopClaimed
      ensures View() == DeliveryForgotten(old(View()))
    {
      preCancel := None;
      cancelPending := false;
      cancelClaimed := false;
      reconcilePending := false;
      stopPending := false;
      stopClaimed := false;
    }

    /** The transition proper of `recordLaunchEvent`, once the event has been found to be allowed. */
    method RecordLaunched(to: LaunchStatus, e: Event)
      requires launch.Some?
      modifies this
      ensures View() == LaunchRecorded(old(View()), old(launch).value, to, e)
    {
      hide LaunchBound, LaunchFails, DeliveryForgotten;
      var a := launch.value;
      BindLaunched(e);
      if to == LaunchFailed {
        FailLaunch(e);
        ForgetDelivery();
      }
      launch := Some(Assignment(to, if e.run.Some? then e.run else a.run,
                                if e.id in a.events then a.events else a.events[e.id := e], a.captured));
    }

    method RecordEvent(to: LaunchStatus, e: Event) returns (accepted: bool, transitioned: bool)
      modifies this
      ensures accepted <==> RecordLaunch(old(View()), to, e).Some?
      ensures accepted ==> View() == RecordLaunch(old(View()), to, e).value
      ensures transitioned <==> accepted && Transitions(old(View()), to)
    {
      hide LaunchRecorded, Expected, Allowed;
      if launch.None? { return false, false; }
      var a := launch.value;
      if to == Launching && Terminal(status) {
        if e.id in a.events { return false, false; }
        launch := Some(Preempted(a, e));
        return true, false;
      }
      if e.kind != Expected(to) || (e.id in a.events && a.events[e.id] != e) { return false, false; }
      if !Allowed(a.status, to) { return true, false; }
      if e.run.Some? && run.Some? && run != e.run { return false, false; }
      RecordLaunched(to, e);
      return true, true;
    }

    method EndAs(claim: Claim)
      modifies `status, `stopReason
      ensures View() == EndedAs(old(View()), claim)
    {
      match claim {
        case ClaimSucceeded => status := Succeeded; stopReason := Some(Success);
        case ClaimCancelled => status := Canceled; stopReason := Some(Cancellation(UserRequested));
        case ClaimMalformed => status := Failed; stopReason := Some(Failure(ArtifactError));
        case ClaimFailed => status := Failed; stopReason := Some(Failure(ExecutionError));
      }
    }

    method FinishCapture(d: Delivery)
      modifies `result, `completedAt, `preCancel, `reconcilePending, `cancelPending
      ensures View() == CaptureEnds(old(View()), d)
    {
      result := Some(d.fingerprint);
      completedAt := Some(d.at);
      preCancel := None;
      reconcilePending := false;
      cancelPending := false;
    }

    method Capture(d: Delivery) returns (accepted: bool)
      modifies this
      ensures accepted <==> CaptureResult(old(View()), d).Some?
      ensures accepted ==> View() == CaptureResult(old(View()), d).value
    {
      hide Terminal, EndedAs, CaptureEnds;
      if launch.None? { return false; }
      var a := launch.value;
      if !d.matches || a.run != Some(d.run) || a.status != Launched { return false; }
      if a.captured.Some? { return a.captured.value == d.fingerprint; }
      if !Terminal(status) {
        EndAs(d.claim);
        FinishCapture(d);
      }
      launch := Some(Assignment(a.status, a.run, a.events, Some(d.fingerprint)));
      return true;
    }
  }

  // ---------------------------------------------------------------- the store object

  /** One operation on one of the workers; an unknown id changes nothing. */
  function At(workers: seq<Worker>, id: nat, op: Op): seq<Worker> {
    if id < |workers| then workers[id := Apply(workers[id], op)] else workers
  }

  predicate Succeeds(workers: seq<Worker>, id: nat, op: Op) {
    id < |workers| && Update(workers[id], op).Some? && Storable(Update(workers[id], op).value)
  }

  /** What the schema asks of a worker: a running one has a process, reasons suit, and its run is that of its start event. */
  lemma StorableMeans(w: Worker)
    ensures Storable(w) <==>
              && (w.status == Running ==> w.pid.Some?)
              && (w.status == Succeeded && w.stopReason.Some? ==> w.stopReason.value in {Success, SuccessBeforeCancellation})
              && (w.status == Failed && w.stopReason.Some? ==> w.stopReason.value.Failure?)
              && (w.status == Canceled && w.stopReason.Some? ==> w.stopReason.value.Cancellation?)
              && (w.launch.Some? ==>
                    forall id :: id in w.launch.value.events && w.launch.value.events[id].kind == StartedEvent ==>
                      w.launch.value.events[id].run.Some? && w.launch.value.events[id].run == w.launch.value.run)
  {
  }

  /** An operation writes the worker it wants if the schema admits it, and nothing otherwise; the other workers stay. */
  lemma OperationMeans(workers: seq<Worker>, id: nat, op: Op)
    ensures |At(workers, id, op)| == |workers|
    ensures forall i :: 0 <= i < |workers| && i != id ==> At(workers, id, op)[i] == workers[i]
    ensures id < |workers| && Succeeds(workers, id, op) ==> At(workers, id, op)[id] == Update(workers[id], op).value
    ensures id < |workers| && !Succeeds(workers, id, op) ==> At(workers, id, op)[id] == workers[id]
    ensures Succeeds(workers, id, op) <==>
              id < |workers| && Update(workers[id], op).Some? && Storable(Update(workers[id], op).value)
  {
    hide Update, Storable;
  }

  lemma SweepsAreStorable(w: Worker, alive: bool, at: int)
    requires Storable(w)
    ensures Storable(Recovered(w)) && Storable(Reconciled(w, alive, at))
  {
  }

  /** `DurableStore`, as far as it keeps workers; a worker id is its position. */
  class DurableStore {
    var workers: seq<Worker>

    ghost predicate Valid()
      reads this
    {
      forall i :: 0 <= i < |workers| ==> Storable(workers[i])
    }

    constructor (workers: seq<Worker>)
      requires forall i :: 0 <= i < |workers| ==> Storable(workers[i])
      ensures Valid() && this.workers == workers
    {
      this.workers := workers;
    }

    /** `persist`: the schema decides whether an update is written; nothing is when the update threw. */
    method Persist(id: nat, wanted: Option<Worker>) returns (written: bool)
      requires Valid() && id < |workers|
      modifies this
      ensures Valid() && written == (wanted.Some? && Storable(wanted.value))
      ensures workers == old(workers)[id := Persisted(old(workers)[id], wanted)]
    {
      written := wanted.Some? && Storable(wanted.value);
      if written { workers := workers[id := wanted.value]; }
    }

    method RequestWorkerCancellation(id: nat, reason: CancelReason, at: int) returns (claimed: bool, local: bool)
      requires Valid()
      modifies this
      ensures Valid() && workers == At(old(workers), id, OpRequestCancel(reason, at))
      ensures claimed <==> id < |workers| && !Terminal(old(workers)[id].status) && old(workers)[id].status != Canceling
      ensures local <==> claimed && RequestCancel(old(workers)[id], reason, at).status == Canceled
    {
      hide RequestCancel, Storable;
      if id >= |workers| { return false, false; }
      var w := new Loaded(workers[id]);
      claimed, local := w.RequestCancellation(reason, at);
      var _ := Persist(id, Some(w.View()));
    }

    method ClaimCancellationDelivery(id: nat) returns (claimed: bool)
      requires Valid()
      modifies this
      ensures Valid() && workers == At(old(workers), id, OpClaimCancel)
      ensures claimed <==> id < |workers| && old(workers)[id].cancelPending && !old(workers)[id].cancelClaimed
    {
      hide Storable;
      if id >= |workers| { return false; }
      var t := workers[id];
      claimed := t.cancelPending && !t.cancelClaimed;
      if claimed { t := t.(cancelPending := false, cancelClaimed := true); }
      var _ := Persist(id, Some(t));
    }

    method ReleaseCancellationDelivery(id: nat)
      requires Valid()
      modifies this
      ensures Valid() && workers == At(old(workers), id, OpReleaseCancel)
    {
      hide ReleaseCancel, Storable;
      if id >= |workers| { return; }
      var w := new Loaded(workers[id]);
      w.ReleaseCancellation();
      var _ := Persist(id, Some(w.View()));
    }

    method MarkCancellationDelivered(id: nat)
      requires Valid()
      modifies this
      ensures Valid() && workers == At(old(workers), id, OpCancelDelivered)
    {
      hide Storable;
      if id >= |workers| { return; }
      var t := workers[id].(cancelPending := false, cancelClaimed := false, cancelDelivered := true,
                            stopPending := false, stopClaimed := false);
      var _ := Persist(id, Some(t));
    }

    method HandleUnsupportedCancellation(id: nat) returns (stored: bool)
      requires Valid()
      modifies this
      ensures Valid() && workers == At(old(workers), id, OpCancelUnsupported)
      ensures stored == Succeeds(old(workers), id, OpCancelUnsupported)
    {
      hide CancelUnsupported, Storable;
      if id >= |workers| { return false; }
      var w := new Loaded(workers[id]);
      w.CancellationUnsupported();
      stored := Persist(id, Some(w.View()));
    }

    method ClaimProviderStop(id: nat) returns (claimed: bool)
      requires Valid()
      modifies this
      ensures Valid() && workers == At(old(workers), id, OpClaimStop)
      ensures claimed <==> id < |workers| && old(workers)[id].stopPending && !old(workers)[id].stopClaimed
    {
      hide Storable;
      if id >= |workers| { return false; }
      var t := workers[id];
      claimed := t.stopPending && !t.stopClaimed;
      if claimed { t := t.(stopPending := false, stopClaimed := true); }
      var _ := Persist(id, Some(t));
    }

    method ReleaseProviderStop(id: nat)
      requires Valid()
      modifies this
      ensures Valid() && workers == At(old(workers), id, OpReleaseStop)
    {
      hide Storable;
      if id >= |workers| { return; }
      var t := workers[id].(stopClaimed := false);
      if t.run.Some? { t := t.(stopPending := true); }
      var _ := Persist(id, Some(t));
    }

    /** The sweep of a starting server over all workers; it writes once, at the end. */
    method RecoverLifecycleDeliveryClaims()
      requires Valid()
      modifies this
      ensures Valid() && |workers| == |old(workers)|
      ensures forall i :: 0 <= i < |workers| ==> workers[i] == Apply(old(workers)[i], OpRecover)
    {
      hide Recovered, Storable;
      var next := workers;
      for i := 0 to |workers|
        invariant |next| == |workers| && workers == old(workers)
        invariant forall k :: 0 <= k < i ==> next[k] == Recovered(workers[k]) && Storable(next[k])
        invariant forall k :: i <= k < |next| ==> next[k] == workers[k]
      {
        var w := new Loaded(next[i]);
        w.RecoverClaims();
        SweepsAreStorable(workers[i], true, 0);
        next := next[i := w.View()];
      }
      workers := next;
    }

    method SettleWorkerCancellation(id: nat, to: Outcome, result: Option<nat>, why: Option<Reason>, at: int, keep: bool)
      returns (claimed: bool, stored: bool)
      requires Valid()
      modifies this
      ensures Valid() && workers == At(old(workers), id, OpSettle(to, result, why, at, keep))
      ensures stored == Succeeds(old(workers), id, OpSettle(to, result, why, at, keep))
      ensures stored ==> (claimed <==> old(workers)[id].status == Canceling)
    {
      hide Settle, Storable;
      if id >= |workers| { return false, false; }
      var w := new Loaded(workers[id]);
      var accepted;
      accepted, claimed := w.SettleCancellation(to, result, why, at, keep);
      stored := Persist(id, if accepted then Some(w.View()) else None);
    }

    method ExpireWorker(id: nat, limit: Option<int>, at: int) returns (claimed: bool)
      requires Valid()
      modifies this
      ensures Valid() && workers == At(old(workers), id, OpExpire(limit, at))
      ensures claimed <==> id < |workers| && Overdue(old(workers)[id], limit, at)
    {
      hide Expire, Storable;
      if id >= |workers| { return false; }
      var w := new Loaded(workers[id]);
      claimed := w.ExpireNow(limit, at);
      var _ := Persist(id, Some(w.View()));
    }

    method RecordWorkerResult(id: nat, succeeded: bool, result: nat, at: int) returns (stored: bool)
      requires Valid()
      modifies this
      ensures Valid() && workers == At(old(workers), id, OpRecordResult(succeeded, result, at))
      ensures stored == Succeeds(old(workers), id, OpRecordResult(succeeded, result, at))
    {
      if id >= |workers| { return false; }
      var w := workers[id];
      assert Storable(w);
      hide Storable;
      var status := if succeeded then Succeeded else Failed;
      if Terminal(w.status) { return w.status == status && w.result == Some(result); }
      stored := Persist(id, Some(w.(status := status, result := Some(result), completedAt := Some(at))));
    }

    /** The startup sweep; `alive[i]` is what the process table says of worker `i`. */
    method Reconcile(alive: seq<bool>, at: int)
      requires Valid() && |alive| == |workers|
      modifies this
      ensures Valid() && |workers| == |old(workers)|
      ensures forall i :: 0 <= i < |workers| ==> workers[i] == Apply(old(workers)[i], OpReconcile(alive[i], at))
      ensures forall i :: 0 <= i < |workers| ==> Swept(old(workers)[i], workers[i], alive[i], at)
    {
      forall i | 0 <= i < |workers| ensures Swept(workers[i], Apply(workers[i], OpReconcile(alive[i], at)), alive[i], at) {
        SweepMeans(workers[i], alive[i], at);
      }
      hide Storable, Swept;
      var next := workers;
      for i := 0 to |workers|
        invariant |next| == |workers| && workers == old(workers)
        invariant forall k :: 0 <= k < i ==> next[k] == Reconciled(workers[k], alive[k], at) && Storable(next[k])
        invariant forall k :: i <= k < |next| ==> next[k] == workers[k]
      {
        SweepsAreStorable(workers[i], alive[i], at);
        if next[i].status == Running && (next[i].pid.None? || !alive[i]) {
          next := next[i := next[i].(status := UnknownOutcome, completedAt := Some(at))];
        }
      }
      workers := next;
    }

    method RecordLaunchEvent(id: nat, to: LaunchStatus, e: Event) returns (transitioned: bool, stored: bool)
      requires Valid() && to != Accepted
      modifies this
      ensures Valid() && workers == At(old(workers), id, OpRecordLaunch(to, e))
      ensures stored == Succeeds(old(workers), id, OpRecordLaunch(to, e))
      ensures transitioned <==> stored && Transitions(old(workers)[id], to)
    {
      hide RecordLaunch, Storable, Transitions;
      if id >= |workers| { return false, false; }
      var w := new Loaded(workers[id]);
      var accepted;
      accepted, transitioned := w.RecordEvent(to, e);
      stored := Persist(id, if accepted then Some(w.View()) else None);
      transitioned := transitioned && stored;
    }

    method CaptureWorkerResult(id: nat, d: Delivery) returns (stored: bool)
      requires Valid()
      modifies this
      ensures Valid() && workers == At(old(workers), id, OpCapture(d))
      ensures stored == Succeeds(old(workers), id, OpCapture(d))
    {
      hide CaptureResult, Storable;
      if id >= |workers| { return false; }
      var w := new Loaded(workers[id]);
      var accepted := w.Capture(d);
      stored := Persist(id, if accepted then Some(w.View()) else None);
    }
  }
}
