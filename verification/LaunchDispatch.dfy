/**
 * Dispatching one accepted assignment: dispatchers of several processes, any of which may crash at any await,
 * reserve the launch, ask an idempotent backend for a run and record how it went.  The worker of the assignment
 * may be cancelled or expire at any time, and a launch call may be accepted after its caller is gone.
 */
module LaunchDispatch {
  import opened Common

  type Pid = nat

  datatype Status = Accepted | Launching | Launched | Failed

  datatype Cause = Denied | Rejected | Unavailable | Malformed

  /** Where a dispatcher stands. */
  datatype Phase =
    | Reserving(denied: bool)
    | Looking
    | Calling
    | Waiting
    | Checking(cause: Cause)
    | Recording(run: nat)
    | GivingUp(why: Cause)

  /**
   * `run` is what the backend accepted for the key of the assignment, `bound` what the assignment says.
   * `reserved` and `sent` are history: the launch was reserved, and a launch call went out.  `lists` are the
   * processes with a listing of pending assignments, perhaps an old one, in which this one is still to come.
   */
  datatype State = State(status: Status, bound: Option<nat>, workerDone: bool, reserved: bool, sent: bool,
                         run: Option<nat>, procs: map<Pid, Phase>, lists: set<Pid>)

  const Init := State(Accepted, None, false, false, false, None, map[], {})

  /** An error may be reported although the rename landed. */
  datatype Write = Written | FailedButLanded | NotLanded

  datatype Authorization = Granted | Refused | Retry

  function Leave(s: State, p: Pid): State { s.(procs := s.procs - {p}) }

  function Go(s: State, p: Pid, f: Phase): State { s.(procs := s.procs[p := f]) }

  /** What `pendingAssignments` lists. */
  predicate Listed(s: State) {
    (s.status == Accepted || s.status == Launching) && !s.workerDone
  }

  function List(s: State, p: Pid): State {
    if p in s.procs || !Listed(s) then s else s.(lists := s.lists + {p})
  }

  /** The assignment comes up in a listing, is read again and its workspace authorized. */
  function Begin(s: State, p: Pid, a: Authorization): State {
    if p in s.procs || p !in s.lists then s
    else
      var t := s.(lists := s.lists - {p});
      if s.status == Launched || s.status == Failed || a.Retry? then t
      else if s.status == Accepted then Go(t, p, Reserving(a.Refused?))
      else Go(t, p, if a.Refused? then GivingUp(Denied) else Looking)
  }

  /** The launching event: refused, or recorded as a failure when the worker has finished meanwhile. */
  function Reserve(s: State, p: Pid, w: Write): State {
    if p !in s.procs || !s.procs[p].Reserving? then s
    else if s.status != Accepted || w.NotLanded? then Leave(s, p)
    else if s.workerDone then Leave(s.(status := Failed), p)
    else
      var t := s.(status := Launching, reserved := true);
      if w.Written? then Go(t, p, if s.procs[p].denied then GivingUp(Denied) else Calling) else Leave(t, p)
  }

  /** What a lookup in the backend answers: the truth, a malformed handle, or an error. */
  datatype Answer = Honest | Garbled | NoAnswer

  /** A dispatcher that found the launch reserved looks for a run first; `cause` is that of an error. */
  function Look(s: State, p: Pid, a: Answer, cause: Cause): State {
    if p !in s.procs || !s.procs[p].Looking? then s
    else if a.Garbled? then Go(s, p, Checking(Malformed))
    else if a.NoAnswer? then Go(s, p, Checking(if cause.Unavailable? then Unavailable else Rejected))
    else Go(s, p, if s.run.Some? then Recording(s.run.value) else Calling)
  }

  function Send(s: State, p: Pid): State {
    if p in s.procs && s.procs[p].Calling? then Go(s.(sent := true), p, Waiting) else s
  }

  function Accept(s: State, run: nat): State {
    if s.sent && s.run.None? then s.(run := Some(run)) else s
  }

  function Returned(s: State, p: Pid): State {
    if p in s.procs && s.procs[p].Waiting? && s.run.Some? then Go(s, p, Recording(s.run.value)) else s
  }

  /** The call resolves without a handle: the failure is recorded and nobody looks for a run. */
  function ReturnedNothing(s: State, p: Pid): State {
    if p in s.procs && s.procs[p].Waiting? then Go(s, p, GivingUp(Malformed)) else s
  }

  function Threw(s: State, p: Pid, cause: Cause): State {
    if p in s.procs && (s.procs[p].Waiting? || s.procs[p].Calling?) && cause != Denied then Go(s, p, Checking(cause))
    else s
  }

  /** The lookup that decides whether a failed attempt started a run after all. */
  function Check(s: State, p: Pid, a: Answer): State {
    if p !in s.procs || !s.procs[p].Checking? then s
    else if a.NoAnswer? then Leave(s, p)
    else if a.Garbled? then Go(s, p, GivingUp(Malformed))
    else if s.run.Some? then Go(s, p, Recording(s.run.value))
    else if s.procs[p].cause.Unavailable? then Leave(s, p)
    else Go(s, p, GivingUp(s.procs[p].cause))
  }

  function Record(s: State, p: Pid, w: Write): State {
    if p !in s.procs || !s.procs[p].Recording? then s
    else if s.status != Launching || w.NotLanded? then Leave(s, p)
    else Leave(s.(status := Launched, bound := Some(s.procs[p].run)), p)
  }

  function GiveUp(s: State, p: Pid, w: Write): State {
    if p !in s.procs || !s.procs[p].GivingUp? then s
    else if (s.status != Accepted && s.status != Launching) || w.NotLanded? then Leave(s, p)
    else Leave(s.(status := Failed), p)
  }

  function Crash(s: State, p: Pid): State { Leave(s, p).(lists := s.lists - {p}) }

  datatype Event =
    | EvList(p: Pid)
    | EvBegin(p: Pid, authorization: Authorization)
    | EvReserve(p: Pid, write: Write)
    | EvLook(p: Pid, answer: Answer, cause: Cause)
    | EvSend(p: Pid)
    | EvAccept(run: nat)
    | EvReturned(p: Pid)
    | EvReturnedNothing(p: Pid)
    | EvThrew(p: Pid, cause: Cause)
    | EvCheck(p: Pid, answer: Answer)
    | EvRecord(p: Pid, write: Write)
    | EvGiveUp(p: Pid, write: Write)
    | EvCrash(p: Pid)
    | EvWorkerDone

  function Step(s: State, e: Event): State {
    match e
    case EvList(p) => List(s, p)
    case EvBegin(p, a) => Begin(s, p, a)
    case EvReserve(p, w) => Reserve(s, p, w)
    case EvLook(p, a, cause) => Look(s, p, a, cause)
    case EvSend(p) => Send(s, p)
    case EvAccept(run) => Accept(s, run)
    case EvReturned(p) => Returned(s, p)
    case EvReturnedNothing(p) => ReturnedNothing(s, p)
    case EvThrew(p, cause) => Threw(s, p, cause)
    case EvCheck(p, a) => Check(s, p, a)
    case EvRecord(p, w) => Record(s, p, w)
    case EvGiveUp(p, w) => GiveUp(s, p, w)
    case EvCrash(p) => Crash(s, p)
    case EvWorkerDone => s.(workerDone := true)
  }

  /** What a series of events makes of a state. */
  function From(s: State, events: seq<Event>): State
    decreases |events|
  {
    if events == [] then s else Step(From(s, events[..|events| - 1]), events[|events| - 1])
  }

  function Run(events: seq<Event>): State { From(Init, events) }

  // ---------------------------------------------------------------- invariants

  ghost predicate PhaseOk(reserved: bool, run: Option<nat>, f: Phase) {
    && (f.Reserving? || reserved)
    && (f.Recording? ==> run == Some(f.run))
  }

  ghost predicate Inv(s: State) {
    && (s.status == Accepted ==> !s.reserved)
    && (s.status == Launching || s.status == Launched ==> s.reserved)
    && (s.run.Some? ==> s.sent) && (s.sent ==> s.reserved)
    && (s.status == Launched <==> s.bound.Some?) && (s.bound.Some? ==> s.bound == s.run)
    && forall p :: p in s.procs ==> PhaseOk(s.reserved, s.run, s.procs[p])
  }

  function Rank(s: Status): nat {
    match s case Accepted => 0 case Launching => 1 case Launched => 2 case Failed => 2
  }

  /** Both ends are final, and what is bound or running stays. */
  ghost predicate Forward(s: State, t: State) {
    && Rank(s.status) <= Rank(t.status) && (Rank(s.status) == 2 ==> t.status == s.status)
    && (s.bound.Some? ==> t.bound == s.bound) && (s.run.Some? ==> t.run == s.run)
  }

  predicate Writes(e: Event) { e.EvReserve? || e.EvSend? || e.EvAccept? || e.EvRecord? || e.EvGiveUp? || e.EvWorkerDone? }

  lemma WritesInv(s: State, e: Event)
    requires Inv(s) && Writes(e)
    ensures Inv(Step(s, e)) && Forward(s, Step(s, e))
  {
    if (e.EvRecord? || e.EvGiveUp? || e.EvSend?) && e.p in s.procs { assert PhaseOk(s.reserved, s.run, s.procs[e.p]); }
  }

  lemma MovesInv(s: State, e: Event)
    requires Inv(s) && !Writes(e)
    ensures Inv(Step(s, e)) && Forward(s, Step(s, e))
  {
  }

  lemma StepInv(s: State, e: Event)
    requires Inv(s)
    ensures Inv(Step(s, e)) && Forward(s, Step(s, e))
  {
    hide Inv, Forward, Step;
    if Writes(e) { WritesInv(s, e); } else { MovesInv(s, e); }
  }

  lemma {:induction false} RunInv(events: seq<Event>)
    ensures Inv(Run(events))
  {
    if events != [] {
      var before := Run(events[..|events| - 1]);
      RunInv(events[..|events| - 1]);
      StepInv(before, events[|events| - 1]);
      hide Inv, Step;
    }
  }

  // ---------------------------------------------------------------- what holds over every run

  /** A launched assignment names the run the backend accepted, and a run was never started without a reservation. */
  lemma LaunchedMeansRunning(events: seq<Event>)
    ensures Run(events).status == Launched ==> Run(events).bound.Some? && Run(events).bound == Run(events).run
    ensures Run(events).run.Some? ==> Run(events).reserved
  {
    RunInv(events);
  }

  lemma {:induction false} AssignmentMovesForward(events: seq<Event>, n: nat)
    requires n <= |events|
    ensures Forward(Run(events[..n]), Run(events))
  {
    if n == |events| {
      assert events[..n] == events;
    } else {
      var before := events[..|events| - 1];
      assert before[..n] == events[..n];
      AssignmentMovesForward(before, n);
      RunInv(before);
      StepInv(Run(before), events[|events| - 1]);
      hide Inv, Step;
    }
  }

  /** A worker that is cancelled or expires before its launch is reserved never runs. */
  lemma {:induction false} CanceledBeforeDispatchNeverRuns(events: seq<Event>, n: nat)
    requires n <= |events| && Run(events[..n]).workerDone && Run(events[..n]).status == Accepted
    ensures Run(events).run.None? && !Run(events).sent && Run(events).status in {Accepted, Failed}
    ensures Run(events).workerDone && !Run(events).reserved
  {
    RunInv(events);
    if n == |events| {
      assert events[..n] == events;
    } else {
      var before := events[..|events| - 1];
      assert before[..n] == events[..n];
      CanceledBeforeDispatchNeverRuns(before, n);
      RunInv(before);
      NeverReservedStep(Run(before), events[|events| - 1]);
      hide Inv, Step;
    }
  }

  lemma NeverReservedStep(s: State, e: Event)
    requires Inv(s) && s.workerDone && !s.reserved
    ensures Step(s, e).workerDone && !Step(s, e).reserved
  {
    if e.EvSend? || e.EvGiveUp? { assert e.p in s.procs ==> PhaseOk(s.reserved, s.run, s.procs[e.p]); }
  }

  // ---------------------------------------------------------------- failed assignments with a run

  ghost predicate Orphan(s: State) { s.status == Failed && s.run.Some? }

  /** A run is left behind already, or a dispatcher is about to leave it behind. */
  ghost predicate AtStake(s: State) {
    || Orphan(s)
    || (s.status == Launching && s.run.Some? && exists p :: p in s.procs && s.procs[p].GivingUp?)
  }

  /** That is, one more write is enough. */
  lemma AtStakeMeansOneWrite(s: State)
    requires Inv(s)
    ensures AtStake(s) <==> Orphan(s) || exists p :: Orphan(Step(s, EvGiveUp(p, Written)))
  {
    if AtStake(s) && !Orphan(s) {
      var p :| p in s.procs && s.procs[p].GivingUp?;
      assert Orphan(Step(s, EvGiveUp(p, Written)));
    }
  }

  predicate SomebodyGivesUp(s: State) {
    exists p :: p in s.procs && s.procs[p].GivingUp?
  }

  /**
   * The steps that put a run at stake: a garbled lookup after a failed attempt, a recovery refused its
   * workspace, a launch call that resolves without a handle, each with a run there already, and an acceptance
   * while somebody is giving up or after the failure was recorded.
   */
  predicate Endangers(s: State, e: Event) {
    match e
    case EvCheck(p, a) =>
      a.Garbled? && p in s.procs && s.procs[p].Checking? && s.status == Launching && s.run.Some?
    case EvBegin(p, a) =>
      a.Refused? && p in s.lists && p !in s.procs && s.status == Launching && s.run.Some?
    case EvReturnedNothing(p) =>
      p in s.procs && s.procs[p].Waiting? && s.status == Launching && s.run.Some?
    case EvAccept(_) =>
      s.sent && s.run.None? && (s.status == Failed || SomebodyGivesUp(s))
    case _ => false
  }

  lemma EndangeredNow(s: State, e: Event)
    requires Inv(s) && Endangers(s, e)
    ensures AtStake(Step(s, e))
  {
    var t := Step(s, e);
    match e {
      case EvCheck(p, a) => assert p in t.procs && t.procs[p].GivingUp?;
      case EvBegin(p, a) => assert p in t.procs && t.procs[p].GivingUp?;
      case EvReturnedNothing(p) => assert p in t.procs && t.procs[p].GivingUp?;
      case EvAccept(run) =>
        if s.status != Failed {
          var p :| p in s.procs && s.procs[p].GivingUp?;
          assert p in t.procs && t.procs[p].GivingUp?;
        }
    }
  }

  lemma SafeStep(s: State, e: Event)
    requires Inv(s) && !AtStake(s) && !Endangers(s, e)
    ensures !AtStake(Step(s, e))
  {
    var t := Step(s, e);
    if e.EvRecord? || e.EvGiveUp? { assert e.p in s.procs ==> PhaseOk(s.reserved, s.run, s.procs[e.p]); }
    if t.status == Launching && t.run.Some? {
      forall p | p in t.procs ensures !t.procs[p].GivingUp? {
        assert p in s.procs ==> PhaseOk(s.reserved, s.run, s.procs[p]);
      }
    }
  }

  /** A step puts a run at stake exactly when it is one of those. */
  lemma AtStakeExactly(s: State, e: Event)
    requires Inv(s) && !AtStake(s)
    ensures AtStake(Step(s, e)) <==> Endangers(s, e)
  {
    hide Inv, AtStake, Endangers, Step;
    if Endangers(s, e) { EndangeredNow(s, e); } else { SafeStep(s, e); }
  }

  /** A history keeps every run out of danger, from beginning to end, exactly when it has no such step. */
  lemma {:induction false} NoOrphansExactly(events: seq<Event>)
    ensures (forall i :: 0 <= i <= |events| ==> !AtStake(Run(events[..i])))
            <==> (forall i :: 0 <= i < |events| ==> !Endangers(Run(events[..i]), events[i]))
  {
    hide Inv, AtStake, Endangers, Step;
    if events == [] {
      StartIsSafe();
      assert forall i :: 0 <= i <= |events| ==> events[..i] == [];
    } else {
      var n := |events| - 1;
      var before := events[..n];
      assert forall i :: 0 <= i <= n ==> before[..i] == events[..i];
      assert events[..n + 1] == events;
      NoOrphansExactly(before);
      RunInv(before);
      assert Run(events) == Step(Run(before), events[n]);
      if !AtStake(Run(before)) { AtStakeExactly(Run(before), events[n]); }
      assert before[..n] == before;
    }
  }

  lemma StartIsSafe()
    ensures !AtStake(Run([]))
  {
  }

  lemma Extended(s: State, events: seq<Event>, e: Event)
    ensures From(s, events + [e]) == Step(From(s, events), e)
    ensures From(s, []) == s
  {
    assert (events + [e])[..|events|] == events;
  }

  /** A history without such a step leaves no run behind a failed assignment. */
  lemma NoOrphans(events: seq<Event>)
    requires forall i :: 0 <= i < |events| ==> !Endangers(Run(events[..i]), events[i])
    ensures !Orphan(Run(events))
  {
    hide Endangers, Run;
    NoOrphansExactly(events);
    assert events[..|events|] == events;
    assert !AtStake(Run(events[..|events|]));
  }

  /** Histories that put a run at stake: up to a crash right after the backend accepted the call. */
  lemma CrashAfterAcceptance(p: Pid, run: nat) returns (waiting: seq<Event>, crashed: seq<Event>)
    ensures Run(waiting) == State(Launching, None, false, true, true, Some(run), map[p := Waiting], {})
    ensures Run(crashed) == State(Launching, None, false, true, true, Some(run), map[], {})
  {
    var e1 := [] + [EvList(p)];
    Extended(Init, [], EvList(p));
    var e2 := e1 + [EvBegin(p, Granted)];
    Extended(Init, e1, EvBegin(p, Granted));
    assert Run(e2) == Init.(procs := map[p := Reserving(false)]);
    var e3 := e2 + [EvReserve(p, Written)];
    Extended(Init, e2, EvReserve(p, Written));
    var s3 := State(Launching, None, false, true, false, None, map[p := Calling], {});
    assert Run(e3) == s3;
    var e4 := e3 + [EvSend(p)];
    Extended(Init, e3, EvSend(p));
    assert Run(e4) == s3.(sent := true, procs := map[p := Waiting]);
    waiting := e4 + [EvAccept(run)];
    Extended(Init, e4, EvAccept(run));
    crashed := waiting + [EvCrash(p)];
    Extended(Init, waiting, EvCrash(p));
    assert map[p := Waiting] - {p} == map[];
  }

  /** Both ways a dispatcher fails an assignment without looking for its run are reached. */
  lemma FailedWithoutLooking(p: Pid, run: nat) returns (refused: seq<Event>, nothing: seq<Event>)
    ensures Orphan(Run(refused)) && Orphan(Run(nothing))
  {
    var waiting, crashed := CrashAfterAcceptance(p, run);
    hide Run;
    OrphanedFrom(Run(waiting), EvReturnedNothing(p), p);
    nothing := waiting + [EvReturnedNothing(p)] + [EvGiveUp(p, Written)];
    ExtendedRun(waiting, EvReturnedNothing(p));
    ExtendedRun(waiting + [EvReturnedNothing(p)], EvGiveUp(p, Written));
    var listed := crashed + [EvList(p)];
    ExtendedRun(crashed, EvList(p));
    OrphanedFrom(Run(listed), EvBegin(p, Refused), p);
    refused := listed + [EvBegin(p, Refused)] + [EvGiveUp(p, Written)];
    ExtendedRun(listed, EvBegin(p, Refused));
    ExtendedRun(listed + [EvBegin(p, Refused)], EvGiveUp(p, Written));
  }

  lemma OrphanedFrom(s: State, e: Event, p: Pid)
    requires s.status == Launching && s.run.Some?
    requires p in Step(s, e).procs && Step(s, e).procs[p].GivingUp? && Step(s, e).status == Launching
    requires Step(s, e).run.Some?
    ensures Orphan(Step(Step(s, e), EvGiveUp(p, Written)))
  {
  }

  lemma ExtendedRun(events: seq<Event>, e: Event)
    ensures Run(events + [e]) == Step(Run(events), e)
  {
    Extended(Init, events, e);
  }

  // ---------------------------------------------------------------- runs nobody records

  /** No dispatcher is at work, and none has the assignment in a listing. */
  predicate Idle(s: State) { s.procs == map[] && s.lists == {} }

  lemma NothingHappens(s: State, e: Event)
    requires Idle(s) && s.run.Some? && s.workerDone
    ensures Step(s, e) == s
  {
    assert s.procs - (if e.EvCrash? then {e.p} else {}) == s.procs;
  }

  lemma {:induction false} NothingEverHappens(s: State, events: seq<Event>)
    requires Idle(s) && s.run.Some? && s.workerDone
    ensures From(s, events) == s
    decreases |events|
  {
    if events != [] {
      NothingEverHappens(s, events[..|events| - 1]);
      NothingHappens(s, events[|events| - 1]);
    }
  }

  /** The next dispatch finds the run and records it. */
  lemma RecordedNext(s: State, p: Pid)
    requires Idle(s) && s.status == Launching && s.run.Some? && !s.workerDone
    ensures exists events :: From(s, events).status == Launched && From(s, events).bound == s.run
  {
    var e1 := [] + [EvList(p)];
    Extended(s, [], EvList(p));
    assert From(s, e1) == s.(lists := {p});
    var e2 := e1 + [EvBegin(p, Granted)];
    Extended(s, e1, EvBegin(p, Granted));
    assert From(s, e2) == s.(procs := map[p := Looking]);
    var e3 := e2 + [EvLook(p, Honest, Rejected)];
    Extended(s, e2, EvLook(p, Honest, Rejected));
    assert From(s, e3).procs == map[p := Recording(s.run.value)];
    Extended(s, e3, EvRecord(p, Written));
    assert From(s, e3 + [EvRecord(p, Written)]).bound == s.run;
  }

  /**
   * When the last dispatcher crashed after the backend accepted the launch, some continuation records the run
   * exactly when the assignment is still listed, that is, when its worker has not finished.
   */
  lemma RecordedExactlyWhenListed(s: State)
    requires Idle(s) && s.status == Launching && s.run.Some?
    ensures (exists events :: From(s, events).status == Launched && From(s, events).bound == s.run) <==> Listed(s)
    ensures !Listed(s) ==> forall events :: From(s, events) == s
  {
    if s.workerDone {
      forall events ensures From(s, events) == s { NothingEverHappens(s, events); }
    } else {
      RecordedNext(s, 0);
    }
  }

  /** And a worker that finishes then does leave such a run. */
  lemma UnrecordedRunReached(p: Pid, run: nat) returns (events: seq<Event>)
    ensures Idle(Run(events)) && Run(events).status == Launching && Run(events).run == Some(run)
    ensures !Listed(Run(events))
  {
    var _, crashed := CrashAfterAcceptance(p, run);
    hide Run;
    ExtendedRun(crashed, EvWorkerDone);
    events := crashed + [EvWorkerDone];
  }

  // ---------------------------------------------------------------- what each step does

  /** Only this dispatcher moved, and now stands there; `None` when it is done. */
  ghost predicate Moves(s: State, t: State, p: Pid, to: Option<Phase>) {
    && (forall q :: q != p ==> (q in t.procs <==> q in s.procs) && (q in s.procs ==> t.procs[q] == s.procs[q]))
    && (p in t.procs <==> to.Some?) && (to.Some? ==> t.procs[p] == to.value)
  }

  /** Nothing of the assignment changed. */
  ghost predicate SameAssignment(s: State, t: State) {
    && t.status == s.status && t.bound == s.bound && t.reserved == s.reserved && t.sent == s.sent && t.run == s.run
    && t.workerDone == s.workerDone
  }

  /** An open assignment of a worker that has not finished is listed; the entry is taken up once. */
  lemma ListingMeans(s: State, p: Pid, a: Authorization)
    requires p !in s.procs
    ensures
      var t := Step(s, EvList(p));
      && t == s.(lists := t.lists)
      && t.lists == s.lists + (if s.status in {Accepted, Launching} && !s.workerDone then {p} else {})
    ensures
      var t := Step(s, EvBegin(p, a));
      if p !in s.lists then t == s
      else
        && SameAssignment(s, t) && t.lists == s.lists - {p}
        && (s.status in {Launched, Failed} || a.Retry? ==> Moves(s, t, p, None))
        && (s.status == Accepted && a.Granted? ==> Moves(s, t, p, Some(Reserving(false))))
        && (s.status == Accepted && a.Refused? ==> Moves(s, t, p, Some(Reserving(true))))
        && (s.status == Launching && a.Granted? ==> Moves(s, t, p, Some(Looking)))
        && (s.status == Launching && a.Refused? ==> Moves(s, t, p, Some(GivingUp(Denied))))
  {
  }

  /** A reservation that lands makes the assignment launching, or failed if the worker has finished. */
  lemma ReservationMeans(s: State, p: Pid, w: Write)
    requires p in s.procs && s.procs[p].Reserving?
    ensures
      var t := Step(s, EvReserve(p, w));
      && t.bound == s.bound && t.sent == s.sent && t.run == s.run && t.workerDone == s.workerDone && t.lists == s.lists
      && (s.status != Accepted || w.NotLanded? ==> SameAssignment(s, t) && Moves(s, t, p, None))
      && (s.status == Accepted && !w.NotLanded? && s.workerDone ==> t.status == Failed && t.reserved == s.reserved && Moves(s, t, p, None))
      && (s.status == Accepted && !w.NotLanded? && !s.workerDone ==>
            && t.status == Launching && t.reserved
            && Moves(s, t, p, if w.FailedButLanded? then None else if s.procs[p].denied then Some(GivingUp(Denied)) else Some(Calling)))
  {
  }

  /** The lookup before a launch: a run that is there is recorded, otherwise the launch is called; an error is checked. */
  lemma FirstLookupMeans(s: State, p: Pid, a: Answer, cause: Cause)
    requires p in s.procs && s.procs[p].Looking?
    ensures
      var t := Step(s, EvLook(p, a, cause));
      && SameAssignment(s, t) && t.lists == s.lists
      && (a.Honest? && s.run.Some? ==> Moves(s, t, p, Some(Recording(s.run.value))))
      && (a.Honest? && s.run.None? ==> Moves(s, t, p, Some(Calling)))
      && (a.Garbled? ==> Moves(s, t, p, Some(Checking(Malformed))))
      && (a.NoAnswer? ==> Moves(s, t, p, Some(Checking(if cause == Unavailable then Unavailable else Rejected))))
  {
  }

  /** The launch call goes out, and whatever it comes to is recorded, given up or checked. */
  lemma CallMeans(s: State, p: Pid, cause: Cause)
    requires p in s.procs && cause != Denied
    ensures s.procs[p].Calling? ==>
              var t := Step(s, EvSend(p));
              t.sent && t.status == s.status && t.run == s.run && t.bound == s.bound && Moves(s, t, p, Some(Waiting))
    ensures s.procs[p].Waiting? && s.run.Some? ==>
              var t := Step(s, EvReturned(p));
              SameAssignment(s, t) && Moves(s, t, p, Some(Recording(s.run.value)))
    ensures s.procs[p].Waiting? ==>
              var t := Step(s, EvReturnedNothing(p));
              SameAssignment(s, t) && Moves(s, t, p, Some(GivingUp(Malformed)))
    ensures s.procs[p].Waiting? || s.procs[p].Calling? ==>
              var t := Step(s, EvThrew(p, cause));
              SameAssignment(s, t) && Moves(s, t, p, Some(Checking(cause)))
  {
  }

  /** The backend accepts a call once, if one went out. */
  lemma AcceptanceMeans(s: State, run: nat)
    ensures Step(s, EvAccept(run)) == if s.sent && s.run.None? then s.(run := Some(run)) else s
  {
  }

  /** The lookup after a failed attempt: a run is recorded, no run is a failure unless the provider was unavailable. */
  lemma SecondLookupMeans(s: State, p: Pid, a: Answer)
    requires p in s.procs && s.procs[p].Checking?
    ensures
      var t := Step(s, EvCheck(p, a));
      && SameAssignment(s, t) && t.lists == s.lists
      && (a.NoAnswer? ==> Moves(s, t, p, None))
      && (a.Garbled? ==> Moves(s, t, p, Some(GivingUp(Malformed))))
      && (a.Honest? && s.run.Some? ==> Moves(s, t, p, Some(Recording(s.run.value))))
      && (a.Honest? && s.run.None? && s.procs[p].cause == Unavailable ==> Moves(s, t, p, None))
      && (a.Honest? && s.run.None? && s.procs[p].cause != Unavailable ==> Moves(s, t, p, Some(GivingUp(s.procs[p].cause))))
  {
  }

  /** A run is recorded, and a failure too, unless the assignment has moved on or the write does not land. */
  lemma OutcomeMeans(s: State, p: Pid, w: Write)
    requires p in s.procs
    ensures s.procs[p].Recording? ==>
              var t := Step(s, EvRecord(p, w));
              && Moves(s, t, p, None) && t.run == s.run && t.sent == s.sent && t.workerDone == s.workerDone && t.lists == s.lists
              && (if s.status == Launching && !w.NotLanded? then t.status == Launched && t.bound == Some(s.procs[p].run)
                  else SameAssignment(s, t))
    ensures s.procs[p].GivingUp? ==>
              var t := Step(s, EvGiveUp(p, w));
              && Moves(s, t, p, None) && t.run == s.run && t.bound == s.bound && t.workerDone == s.workerDone && t.lists == s.lists
              && (if s.status in {Accepted, Launching} && !w.NotLanded? then t.status == Failed else SameAssignment(s, t))
    ensures
      var t := Step(s, EvCrash(p));
      Moves(s, t, p, None) && SameAssignment(s, t) && t.lists == s.lists - {p}
  {
  }

  /** A dispatch that nothing disturbs reserves the launch. */
  lemma ReachesCalling(s: State, p: Pid)
    requires s.status == Accepted && !s.workerDone && p !in s.procs
    ensures
      var t := Step(Step(Step(s, EvList(p)), EvBegin(p, Granted)), EvReserve(p, Written));
      t.status == Launching && t.run == s.run && t.bound == s.bound && Moves(s, t, p, Some(Calling))
  {
  }

  /** A call that succeeds launches the assignment, with the run of the backend. */
  lemma CallSucceeds(s: State, p: Pid, run: nat)
    requires s.status == Launching && p in s.procs && s.procs[p].Calling? && s.run.None?
    ensures
      var t := Step(Step(Step(Step(s, EvSend(p)), EvAccept(run)), EvReturned(p)), EvRecord(p, Written));
      t.status == Launched && t.bound == Some(run) && t.run == Some(run) && Moves(s, t, p, None)
  {
  }

  /** One that the provider rejects without starting anything fails it. */
  lemma CallIsRejected(s: State, p: Pid)
    requires s.status == Launching && p in s.procs && s.procs[p].Calling? && s.run.None?
    ensures
      var t := Step(Step(Step(Step(s, EvSend(p)), EvThrew(p, Rejected)), EvCheck(p, Honest)), EvGiveUp(p, Written));
      t.status == Failed && t.bound == s.bound && t.run.None? && Moves(s, t, p, None)
  {
  }

  /** Together: from an accepted assignment to its launch or its failure. */
  lemma UninterruptedDispatch(s: State, p: Pid, run: nat)
    requires s.status == Accepted && !s.workerDone && p !in s.procs && s.run.None?
    ensures
      var calling := Step(Step(Step(s, EvList(p)), EvBegin(p, Granted)), EvReserve(p, Written));
      var t := Step(Step(Step(Step(calling, EvSend(p)), EvAccept(run)), EvReturned(p)), EvRecord(p, Written));
      var u := Step(Step(Step(Step(calling, EvSend(p)), EvThrew(p, Rejected)), EvCheck(p, Honest)), EvGiveUp(p, Written));
      && t.status == Launched && t.bound == Some(run) && t.run == Some(run) && p !in t.procs
      && u.status == Failed && u.bound == s.bound && u.run.None? && p !in u.procs
  {
    hide Step;
    ReachesCalling(s, p);
    var calling := Step(Step(Step(s, EvList(p)), EvBegin(p, Granted)), EvReserve(p, Written));
    CallSucceeds(calling, p, run);
    CallIsRejected(calling, p);
  }

  // ---------------------------------------------------------------- the service

  /** The durable assignment, the backend and the dispatchers at work on it. */
  class LaunchService {
    var status: Status
    var bound: Option<nat>
    var workerDone: bool
    ghost var reserved: bool
    var sent: bool
    var run: Option<nat>
    var procs: map<Pid, Phase>
    var lists: set<Pid>

    ghost function View(): State
      reads this
    {
      State(status, bound, workerDone, reserved, sent, run, procs, lists)
    }

    ghost predicate Valid()
      reads this
    {
      Inv(View())
    }

    constructor ()
      ensures Valid() && View() == Init
    {
      status, bound, workerDone, reserved, sent, run := Accepted, None, false, false, false, None;
      procs, lists := map[], {};
    }

    /** `pendingAssignments`, by a process that is not at work on this assignment. */
    method ListPending(p: Pid) returns (listed: bool)
      requires Valid() && p !in procs
      modifies this
      ensures Valid() && View() == List(old(View()), p)
      ensures listed <==> Listed(old(View()))
    {
      hide Inv;
      StepInv(View(), EvList(p));
      listed := (status == Accepted || status == Launching) && !workerDone;
      if listed { lists := lists + {p}; }
    }

    /** `dispatch` up to its first write. */
    method Dispatch(p: Pid, a: Authorization)
      requires Valid() && p !in procs && p in lists
      modifies this
      ensures Valid() && View() == Begin(old(View()), p, a)
    {
      hide Inv;
      StepInv(View(), EvBegin(p, a));
      lists := lists - {p};
      if status != Accepted && status != Launching { return; }
      var recovering := status == Launching;
      if a == Retry { return; }
      if a == Refused {
        procs := procs[p := if recovering then GivingUp(Denied) else Reserving(true)];
      } else {
        procs := procs[p := if recovering then Looking else Reserving(false)];
      }
    }

    method ReserveLaunch(p: Pid, w: Write)
      requires Valid() && p in procs && procs[p].Reserving?
      modifies this
      ensures Valid() && View() == Reserve(old(View()), p, w)
    {
      hide Inv;
      StepInv(View(), EvReserve(p, w));
      if status != Accepted || w == NotLanded {
        procs := procs - {p};
      } else if workerDone {
        status := Failed;
        procs := procs - {p};
      } else {
        status := Launching;
        reserved := true;
        if w == Written {
          procs := procs[p := if procs[p].denied then GivingUp(Denied) else Calling];
        } else {
          procs := procs - {p};
        }
      }
    }

    /** The lookup before a launch that was reserved earlier. */
    method FindFirst(p: Pid, a: Answer, cause: Cause)
      requires Valid() && p in procs && procs[p].Looking?
      modifies this
      ensures Valid() && View() == Look(old(View()), p, a, cause)
    {
      hide Inv;
      StepInv(View(), EvLook(p, a, cause));
      if a == Garbled {
        procs := procs[p := Checking(Malformed)];
      } else if a == NoAnswer {
        procs := procs[p := Checking(if cause == Unavailable then Unavailable else Rejected)];
      } else if run.Some? {
        procs := procs[p := Recording(run.value)];
      } else {
        procs := procs[p := Calling];
      }
    }

    method CallLaunch(p: Pid)
      requires Valid() && p in procs && procs[p].Calling?
      modifies this
      ensures Valid() && View() == Send(old(View()), p)
    {
      hide Inv;
      StepInv(View(), EvSend(p));
      sent := true;
      procs := procs[p := Waiting];
    }

    /** `launch` resolves: with the handle of the run, or without one. */
    method LaunchResolved(p: Pid, handle: Option<nat>)
      requires Valid() && p in procs && procs[p].Waiting?
      requires handle.Some? ==> handle == run
      modifies this
      ensures Valid()
      ensures View() == if handle.Some? then Returned(old(View()), p) else ReturnedNothing(old(View()), p)
    {
      hide Inv;
      StepInv(View(), EvReturned(p));
      StepInv(View(), EvReturnedNothing(p));
      procs := procs[p := if handle.Some? then Recording(handle.value) else GivingUp(Malformed)];
    }

    method LaunchThrew(p: Pid, cause: Cause)
      requires Valid() && p in procs && (procs[p].Waiting? || procs[p].Calling?) && cause != Denied
      modifies this
      ensures Valid() && View() == Threw(old(View()), p, cause)
    {
      hide Inv;
      StepInv(View(), EvThrew(p, cause));
      procs := procs[p := Checking(cause)];
    }

    /** The lookup after a failed attempt. */
    method CheckAttempt(p: Pid, a: Answer)
      requires Valid() && p in procs && procs[p].Checking?
      modifies this
      ensures Valid() && View() == Check(old(View()), p, a)
    {
      hide Inv;
      StepInv(View(), EvCheck(p, a));
      var cause := procs[p].cause;
      if a == Garbled {
        procs := procs[p := GivingUp(Malformed)];
      } else if a == Honest && run.Some? {
        procs := procs[p := Recording(run.value)];
      } else if a == Honest && cause != Unavailable {
        procs := procs[p := GivingUp(cause)];
      } else {
        procs := procs - {p};
      }
    }

    method RecordStarted(p: Pid, w: Write)
      requires Valid() && p in procs && procs[p].Recording?
      modifies this
      ensures Valid() && View() == Record(old(View()), p, w)
    {
      hide Inv;
      StepInv(View(), EvRecord(p, w));
      if status == Launching && w != NotLanded {
        status := Launched;
        bound := Some(procs[p].run);
      }
      procs := procs - {p};
    }

    method RecordLaunchFailure(p: Pid, w: Write)
      requires Valid() && p in procs && procs[p].GivingUp?
      modifies this
      ensures Valid() && View() == GiveUp(old(View()), p, w)
    {
      hide Inv;
      StepInv(View(), EvGiveUp(p, w));
      if (status == Accepted || status == Launching) && w != NotLanded { status := Failed; }
      procs := procs - {p};
    }
  }
}
