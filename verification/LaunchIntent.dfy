/**
 * Launch intents: several coordinators, any of which may crash between two awaits, take an idempotency key from
 * a durable reservation to a bound run.  The backend accepts a key at most once and never forgets it, but it may
 * do so after the coordinator that asked is gone.
 */
module LaunchIntent {
  import opened Common

  type Key = nat
  type Pid = nat

  datatype Status = Reserved | Dispatching | UnknownOutcome | Bound

  datatype Intent = Intent(hash: nat, status: Status, run: Option<nat>)

  predicate Allowed(from: Status, to: Status) {
    match from
    case Reserved => to == Reserved || to == Dispatching || to == UnknownOutcome
    case Dispatching => to == Dispatching || to == UnknownOutcome || to == Bound
    case UnknownOutcome => to == UnknownOutcome || to == Bound
    case Bound => to == Bound
  }

  /** `updateLaunch`; `None` when it throws. */
  function UpdateLaunch(i: Intent, to: Status, run: Option<nat>): Option<Intent> {
    var next := i.(status := to, run := if run.Some? then run else i.run);
    if !Allowed(i.status, to) then None
    else if to == Bound && next.run.None? then None
    else if i.status == Bound && next.run != i.run then None
    else Some(next)
  }

  /** An error may be reported although the rename landed. */
  datatype Write = Written | FailedButLanded | NotLanded

  /** Where a coordinator stands. */
  datatype Phase =
    | Looking(key: Key, mayDispatch: bool)
    | Ready(key: Key)
    | Launching(key: Key)
    | Binding(key: Key, run: nat, launched: bool)
    | Failing(key: Key)

  datatype Reply = Reply(key: Key, run: nat)

  /** `sent`: the keys for which a launch call has gone out. `runs`: what the backend accepted. */
  datatype State = State(intents: map<Key, Intent>, procs: map<Pid, Phase>, sent: set<Key>, runs: map<Key, nat>,
                         nextRun: nat, replies: seq<Reply>)

  const Init := State(map[], map[], {}, map[], 0, [])

  function Leave(s: State, p: Pid): State { s.(procs := s.procs - {p}) }

  function Go(s: State, p: Pid, f: Phase): State { s.(procs := s.procs[p := f]) }

  function Reserve(s: State, p: Pid, k: Key, hash: nat, w: Write): State {
    if p in s.procs then s
    else if k in s.intents then
      var i := s.intents[k];
      if i.hash != hash then s
      else if i.status == Bound && i.run.Some? then s.(replies := s.replies + [Reply(k, i.run.value)])
      else Go(s, p, Looking(k, i.status == Reserved))
    else
      s.(intents := if w.NotLanded? then s.intents else s.intents[k := Intent(hash, Reserved, None)],
         procs := if w.Written? then s.procs[p := Looking(k, true)] else s.procs)
  }

  /** The backend answers `findByIdempotencyKey`. */
  function Look(s: State, p: Pid): State {
    if p !in s.procs || !s.procs[p].Looking? then s
    else
      var k := s.procs[p].key;
      if k in s.runs then Go(s, p, Binding(k, s.runs[k], false))
      else if s.procs[p].mayDispatch then Go(s, p, Ready(k))
      else Leave(s, p)
  }

  /** `reconcile` finds a run for an intent it read earlier. */
  function ReconcileLook(s: State, p: Pid, k: Key): State {
    if p in s.procs || k !in s.intents || k !in s.runs then s else Go(s, p, Binding(k, s.runs[k], false))
  }

  function Store(s: State, k: Key, next: Option<Intent>, w: Write): State {
    if next.None? || w.NotLanded? then s else s.(intents := s.intents[k := next.value])
  }

  /** The write of `dispatching`, after which the launch call goes out. */
  function Dispatch(s: State, p: Pid, w: Write): State {
    if p !in s.procs || !s.procs[p].Ready? || s.procs[p].key !in s.intents then s
    else
      var k := s.procs[p].key;
      var next := UpdateLaunch(s.intents[k], Dispatching, None);
      var t := Store(s, k, next, w);
      if next.Some? && w.Written? then Go(t.(sent := t.sent + {k}), p, Launching(k)) else Leave(t, p)
  }

  function Accept(s: State, k: Key): State {
    if k in s.sent && k !in s.runs then s.(runs := s.runs[k := s.nextRun], nextRun := s.nextRun + 1) else s
  }

  function Returned(s: State, p: Pid): State {
    if p in s.procs && s.procs[p].Launching? && s.procs[p].key in s.runs then
      Go(s, p, Binding(s.procs[p].key, s.runs[s.procs[p].key], true))
    else s
  }

  function Threw(s: State, p: Pid): State {
    if p in s.procs && s.procs[p].Launching? then Go(s, p, Failing(s.procs[p].key)) else s
  }

  /** A binding that fails inside the launch attempt is recorded as an unknown outcome next. */
  function BindWritten(s: State, p: Pid, w: Write): State {
    if p !in s.procs || !s.procs[p].Binding? || s.procs[p].key !in s.intents then s
    else
      var f := s.procs[p];
      var next := UpdateLaunch(s.intents[f.key], Bound, Some(f.run));
      var t := Store(s, f.key, next, w);
      if next.Some? && w.Written? then Leave(t.(replies := t.replies + [Reply(f.key, f.run)]), p)
      else if f.launched then Go(t, p, Failing(f.key))
      else Leave(t, p)
  }

  function FailWritten(s: State, p: Pid, w: Write): State {
    if p !in s.procs || !s.procs[p].Failing? || s.procs[p].key !in s.intents then s
    else Leave(Store(s, s.procs[p].key, UpdateLaunch(s.intents[s.procs[p].key], UnknownOutcome, None), w), p)
  }

  /** A crash, or a refused authorization outside the launch attempt. */
  function GivenUp(s: State, p: Pid): State { Leave(s, p) }

  datatype Event =
    | EvReserve(p: Pid, key: Key, hash: nat, write: Write)
    | EvLook(p: Pid)
    | EvReconcileLook(p: Pid, key: Key)
    | EvDispatch(p: Pid, write: Write)
    | EvAccept(key: Key)
    | EvReturned(p: Pid)
    | EvThrew(p: Pid)
    | EvBindWritten(p: Pid, write: Write)
    | EvFailWritten(p: Pid, write: Write)
    | EvGivenUp(p: Pid)

  function Step(s: State, e: Event): State {
    match e
    case EvReserve(p, k, hash, w) => Reserve(s, p, k, hash, w)
    case EvLook(p) => Look(s, p)
    case EvReconcileLook(p, k) => ReconcileLook(s, p, k)
    case EvDispatch(p, w) => Dispatch(s, p, w)
    case EvAccept(k) => Accept(s, k)
    case EvReturned(p) => Returned(s, p)
    case EvThrew(p) => Threw(s, p)
    case EvBindWritten(p, w) => BindWritten(s, p, w)
    case EvFailWritten(p, w) => FailWritten(s, p, w)
    case EvGivenUp(p) => GivenUp(s, p)
  }

  function Run(events: seq<Event>): State {
    if events == [] then Init else Step(Run(events[..|events| - 1]), events[|events| - 1])
  }

  // ---------------------------------------------------------------- invariants

  ghost predicate IntentsOk(intents: map<Key, Intent>, sent: set<Key>, runs: map<Key, nat>) {
    && (forall k :: k in sent ==> k in intents && intents[k].status != Reserved)
    && (forall k :: k in runs ==> k in sent)
    && (forall k :: k in intents ==>
          && (intents[k].status == Bound <==> intents[k].run.Some?)
          && (intents[k].run.Some? ==> k in runs && runs[k] == intents[k].run.value))
  }

  ghost predicate RunsOk(runs: map<Key, nat>, nextRun: nat) {
    && (forall k :: k in runs ==> runs[k] < nextRun)
    && (forall k, l :: k in runs && l in runs && runs[k] == runs[l] ==> k == l)
  }

  ghost predicate PhaseOk(intents: map<Key, Intent>, sent: set<Key>, runs: map<Key, nat>, f: Phase) {
    && f.key in intents
    && (f.Launching? || f.Failing? ==> f.key in sent)
    && (f.Binding? ==> f.key in runs && runs[f.key] == f.run)
  }

  ghost predicate Honest(intents: map<Key, Intent>, replies: seq<Reply>) {
    forall i :: 0 <= i < |replies| ==>
      replies[i].key in intents && intents[replies[i].key].status == Bound
      && intents[replies[i].key].run == Some(replies[i].run)
  }

  ghost predicate Inv(s: State) {
    && IntentsOk(s.intents, s.sent, s.runs)
    && RunsOk(s.runs, s.nextRun)
    && (forall p :: p in s.procs ==> PhaseOk(s.intents, s.sent, s.runs, s.procs[p]))
    && Honest(s.intents, s.replies)
  }

  function Rank(s: Status): nat {
    match s case Reserved => 0 case Dispatching => 1 case UnknownOutcome => 2 case Bound => 3
  }

  /** Intents are never forgotten or relabelled, their status only rises, and a bound run stays. */
  ghost predicate Rises(a: map<Key, Intent>, b: map<Key, Intent>) {
    forall k :: k in a ==>
      && k in b && b[k].hash == a[k].hash
      && Rank(a[k].status) <= Rank(b[k].status)
      && (a[k].run.Some? ==> b[k].run == a[k].run)
  }

  lemma RisesItself(a: map<Key, Intent>)
    ensures Rises(a, a)
  {
  }

  lemma UpdateRises(i: Intent, to: Status, run: Option<nat>)
    requires i.status == Bound <==> i.run.Some?
    requires to == Bound <==> run.Some?
    requires UpdateLaunch(i, to, run).Some?
    ensures
      var j := UpdateLaunch(i, to, run).value;
      && j.hash == i.hash && Rank(i.status) <= Rank(j.status) && j.status == to
      && (j.status == Bound <==> j.run.Some?)
      && (i.run.Some? ==> j.run == i.run)
      && (run.Some? ==> j.run == run)
  {
  }

  lemma ReplacedOk(intents: map<Key, Intent>, sent: set<Key>, runs: map<Key, nat>, k: Key, next: Intent)
    requires IntentsOk(intents, sent, runs) && k in intents && next.status != Reserved
    requires next.status == Bound <==> next.run.Some?
    requires next.run.Some? ==> k in runs && runs[k] == next.run.value
    ensures IntentsOk(intents[k := next], sent, runs)
  {
  }

  lemma ReplacedHonest(intents: map<Key, Intent>, replies: seq<Reply>, k: Key, next: Intent)
    requires Honest(intents, replies) && k in intents
    requires intents[k].run.Some? ==> next.run == intents[k].run
    requires next.status == Bound <==> next.run.Some?
    ensures Honest(intents[k := next], replies)
  {
  }

  lemma StoreInv(s: State, k: Key, to: Status, run: Option<nat>, w: Write)
    requires Inv(s) && k in s.intents && (to == Bound <==> run.Some?)
    requires run.Some? ==> k in s.runs && s.runs[k] == run.value
    requires to != Reserved
    ensures
      var next := UpdateLaunch(s.intents[k], to, run);
      var t := Store(s, k, next, w);
      && Inv(t) && Rises(s.intents, t.intents)
      && (next.Some? && w.Written? ==> t.intents[k].status == to && t.intents[k].run == next.value.run)
      && t.procs == s.procs && t.sent == s.sent && t.runs == s.runs && t.replies == s.replies
      && t.intents.Keys == s.intents.Keys
  {
    hide UpdateLaunch, RunsOk, IntentsOk, Honest, PhaseOk, Rises;
    RisesItself(s.intents);
    IntentShape(s, k);
    if UpdateLaunch(s.intents[k], to, run).Some? {
      UpdateRises(s.intents[k], to, run);
      var next := UpdateLaunch(s.intents[k], to, run).value;
      ReplacedOk(s.intents, s.sent, s.runs, k, next);
      ReplacedHonest(s.intents, s.replies, k, next);
      ReplacedRises(s.intents, k, next);
      forall f | PhaseOk(s.intents, s.sent, s.runs, f) ensures PhaseOk(s.intents[k := next], s.sent, s.runs, f) {
        ReplacedPhase(s.intents, s.sent, s.runs, k, next, f);
      }
    }
  }

  lemma IntentShape(s: State, k: Key)
    requires IntentsOk(s.intents, s.sent, s.runs) && k in s.intents
    ensures s.intents[k].status == Bound <==> s.intents[k].run.Some?
  {
  }

  lemma ReplacedRises(intents: map<Key, Intent>, k: Key, next: Intent)
    requires k in intents && next.hash == intents[k].hash && Rank(intents[k].status) <= Rank(next.status)
    requires intents[k].run.Some? ==> next.run == intents[k].run
    ensures Rises(intents, intents[k := next])
  {
  }

  lemma ReplacedPhase(intents: map<Key, Intent>, sent: set<Key>, runs: map<Key, nat>, k: Key, next: Intent, f: Phase)
    requires k in intents && PhaseOk(intents, sent, runs, f)
    ensures PhaseOk(intents[k := next], sent, runs, f)
  {
  }

  lemma NewIntentOk(s: State, k: Key, hash: nat)
    requires Inv(s) && k !in s.intents
    ensures
      var t := s.(intents := s.intents[k := Intent(hash, Reserved, None)]);
      Inv(t) && Rises(s.intents, t.intents)
  {
    hide RunsOk;
    assert k !in s.sent;
  }

  lemma EnterOk(s: State, p: Pid, f: Phase)
    requires Inv(s) && PhaseOk(s.intents, s.sent, s.runs, f)
    ensures Inv(Go(s, p, f))
  {
    hide RunsOk, IntentsOk, Honest;
  }

  lemma ReserveInv(s: State, p: Pid, k: Key, hash: nat, w: Write)
    requires Inv(s)
    ensures Inv(Reserve(s, p, k, hash, w)) && Rises(s.intents, Reserve(s, p, k, hash, w).intents)
  {
    if p !in s.procs && k !in s.intents {
      hide Inv, Rises;
      assert Rises(s.intents, s.intents) by { RisesItself(s.intents); }
      NewIntentOk(s, k, hash);
      var t := s.(intents := s.intents[k := Intent(hash, Reserved, None)]);
      EnterOk(t, p, Looking(k, true));
    } else if p !in s.procs {
      hide RunsOk;
      EnterOk(s, p, Looking(k, s.intents[k].status == Reserved));
    }
  }

  lemma LookInv(s: State, p: Pid, k: Key)
    requires Inv(s)
    ensures Inv(Look(s, p)) && Look(s, p).intents == s.intents
    ensures Inv(ReconcileLook(s, p, k)) && ReconcileLook(s, p, k).intents == s.intents
    ensures Inv(Returned(s, p)) && Inv(Threw(s, p)) && Inv(GivenUp(s, p))
  {
  }

  lemma AcceptInv(s: State, k: Key)
    requires Inv(s)
    ensures Inv(Accept(s, k))
  {
  }

  lemma DispatchInv(s: State, p: Pid, w: Write)
    requires Inv(s)
    ensures Inv(Dispatch(s, p, w)) && Rises(s.intents, Dispatch(s, p, w).intents)
  {
    if p in s.procs && s.procs[p].Ready? && s.procs[p].key in s.intents {
      StoreInv(s, s.procs[p].key, Dispatching, None, w);
      hide UpdateLaunch, Store, Honest, RunsOk;
    }
  }

  lemma BindWrittenInv(s: State, p: Pid, w: Write)
    requires Inv(s)
    ensures Inv(BindWritten(s, p, w)) && Rises(s.intents, BindWritten(s, p, w).intents)
  {
    if p in s.procs && s.procs[p].Binding? && s.procs[p].key in s.intents {
      StoreInv(s, s.procs[p].key, Bound, Some(s.procs[p].run), w);
      RecoveryBindingIsLegal(s, p);
    }
  }

  /** A run exists only once its intent has left `reserved`, so binding it is always a legal transition. */
  lemma RecoveryBindingIsLegal(s: State, p: Pid)
    requires Inv(s) && p in s.procs && s.procs[p].Binding?
    ensures s.procs[p].key in s.intents
    ensures UpdateLaunch(s.intents[s.procs[p].key], Bound, Some(s.procs[p].run)).Some?
  {
    assert PhaseOk(s.intents, s.sent, s.runs, s.procs[p]);
  }

  lemma FailWrittenInv(s: State, p: Pid, w: Write)
    requires Inv(s)
    ensures Inv(FailWritten(s, p, w)) && Rises(s.intents, FailWritten(s, p, w).intents)
  {
    if p in s.procs && s.procs[p].Failing? && s.procs[p].key in s.intents {
      StoreInv(s, s.procs[p].key, UnknownOutcome, None, w);
      hide UpdateLaunch, Store, Honest, RunsOk, IntentsOk;
    }
  }

  lemma StepInv(s: State, e: Event)
    requires Inv(s)
    ensures Inv(Step(s, e)) && Rises(s.intents, Step(s, e).intents)
  {
    hide Inv;
    match e
    case EvReserve(p, k, hash, w) => ReserveInv(s, p, k, hash, w);
    case EvLook(p) => LookInv(s, p, 0);
    case EvReconcileLook(p, k) => LookInv(s, p, k);
    case EvDispatch(p, w) => DispatchInv(s, p, w);
    case EvAccept(k) => AcceptInv(s, k);
    case EvReturned(p) => LookInv(s, p, 0);
    case EvThrew(p) => LookInv(s, p, 0);
    case EvBindWritten(p, w) => BindWrittenInv(s, p, w);
    case EvFailWritten(p, w) => FailWrittenInv(s, p, w);
    case EvGivenUp(p) => LookInv(s, p, 0);
  }

  lemma {:induction false} RunInv(events: seq<Event>)
    ensures Inv(Run(events))
  {
    if events != [] {
      RunInv(events[..|events| - 1]);
      StepInv(Run(events[..|events| - 1]), events[|events| - 1]);
      hide Inv, Step;
    }
  }

  // ---------------------------------------------------------------- what holds over every run

  /** A run that exists belongs to an intent that is no longer merely reserved, and to no other key. */
  lemma RunsBelongToOneIntent(events: seq<Event>, k: Key, l: Key)
    requires k in Run(events).runs
    ensures
      var s := Run(events);
      && k in s.intents && s.intents[k].status != Reserved
      && (s.intents[k].status == Bound ==> s.intents[k].run == Some(s.runs[k]))
      && (l in s.runs && s.runs[l] == s.runs[k] ==> l == k)
  {
    RunInv(events);
  }

  /** No binding of a recovered or launched run is ever refused, whoever else is at work on the key. */
  lemma BindingNeverRefused(events: seq<Event>, p: Pid)
    requires p in Run(events).procs && Run(events).procs[p].Binding?
    ensures
      var s := Run(events);
      && s.procs[p].key in s.intents
      && UpdateLaunch(s.intents[s.procs[p].key], Bound, Some(s.procs[p].run)).Some?
  {
    RunInv(events);
    RecoveryBindingIsLegal(Run(events), p);
  }

  lemma {:induction false} IntentsOnlyRise(events: seq<Event>, n: nat)
    requires n <= |events|
    ensures Rises(Run(events[..n]).intents, Run(events).intents)
  {
    if n == |events| {
      assert events[..n] == events;
    } else {
      var before := events[..|events| - 1];
      assert before[..n] == events[..n];
      IntentsOnlyRise(before, n);
      RunInv(before);
      StepInv(Run(before), events[|events| - 1]);
      hide Inv, Step;
    }
  }

  /** Every launch of a key that succeeds, before or after a crash, reports the same run. */
  lemma RepliesAgree(events: seq<Event>, i: nat, j: nat)
    requires i < |Run(events).replies| && j < |Run(events).replies|
    requires Run(events).replies[i].key == Run(events).replies[j].key
    ensures Run(events).replies[i] == Run(events).replies[j]
  {
    RunInv(events);
    var s := Run(events);
    assert s.intents[s.replies[i].key].run == Some(s.replies[i].run);
    assert s.intents[s.replies[j].key].run == Some(s.replies[j].run);
  }

  function Pair(k: Key, hash: nat, status: Status, p: Pid, q: Pid, f: Phase, g: Phase, sent: set<Key>): State {
    State(map[k := Intent(hash, status, None)], map[p := f, q := g], sent, map[], 0, [])
  }

  lemma PairSteps(p: Pid, q: Pid, k: Key, hash: nat)
    requires p != q
    ensures Reserve(Reserve(Init, p, k, hash, Written), q, k, hash, Written)
            == Pair(k, hash, Reserved, p, q, Looking(k, true), Looking(k, true), {})
    ensures Look(Look(Pair(k, hash, Reserved, p, q, Looking(k, true), Looking(k, true), {}), p), q)
            == Pair(k, hash, Reserved, p, q, Ready(k), Ready(k), {})
  {
  }

  lemma PairSends(p: Pid, q: Pid, k: Key, hash: nat)
    requires p != q
    ensures Dispatch(Pair(k, hash, Reserved, p, q, Ready(k), Ready(k), {}), p, Written)
            == Pair(k, hash, Dispatching, p, q, Launching(k), Ready(k), {k})
    ensures Dispatch(Pair(k, hash, Dispatching, p, q, Launching(k), Ready(k), {k}), q, Written)
            == Pair(k, hash, Dispatching, p, q, Launching(k), Launching(k), {k})
  {
  }

  /** Two coordinators can both send the launch of one key: only the backend keeps it to one run. */
  lemma BothMayDispatch(p: Pid, q: Pid, k: Key, hash: nat)
    requires p != q
    ensures exists events ::
      var s := Run(events);
      p in s.procs && q in s.procs && s.procs[p] == Launching(k) && s.procs[q] == Launching(k)
  {
    PairSteps(p, q, k, hash);
    PairSends(p, q, k, hash);
    var e1 := [] + [EvReserve(p, k, hash, Written)];
    var e2 := e1 + [EvReserve(q, k, hash, Written)];
    var e3 := e2 + [EvLook(p)];
    var e4 := e3 + [EvLook(q)];
    var e5 := e4 + [EvDispatch(p, Written)];
    hide Reserve, Look, Dispatch, Run;
    Extended([], EvReserve(p, k, hash, Written));
    Extended(e1, EvReserve(q, k, hash, Written));
    Extended(e2, EvLook(p));
    Extended(e3, EvLook(q));
    Extended(e4, EvDispatch(p, Written));
    Extended(e5, EvDispatch(q, Written));
    assert Run(e5 + [EvDispatch(q, Written)]) == Pair(k, hash, Dispatching, p, q, Launching(k), Launching(k), {k});
  }

  lemma Extended(events: seq<Event>, e: Event)
    ensures Run(events + [e]) == Step(Run(events), e)
    ensures Run([]) == Init
  {
    assert (events + [e])[..|events|] == events;
  }

  // ---------------------------------------------------------------- keys refused for good

  /** The coordinator may still send the launch of this key. */
  predicate MaySend(s: State, p: Pid, k: Key) {
    p in s.procs && s.procs[p].key == k && (s.procs[p].Ready? || (s.procs[p].Looking? && s.procs[p].mayDispatch))
  }

  /**
   * The intent has left `reserved`, so every later launch of the key is refused, although none was ever sent
   * and nobody is left who would send it.
   */
  ghost predicate Stuck(s: State, k: Key) {
    k in s.intents && s.intents[k].status != Reserved && k !in s.sent && forall p :: p in s.procs ==> !MaySend(s, p, k)
  }

  /** `p` is the last one that may still send the launch of a key for which none was sent. */
  ghost predicate LastSender(s: State, p: Pid, k: Key) {
    MaySend(s, p, k) && k in s.intents && k !in s.sent && forall q :: q in s.procs && q != p ==> !MaySend(s, q, k)
  }

  /**
   * The steps that do this to a key: its last sender fails to record the dispatch although the write landed, or
   * fails or gives up after the write of another one has landed so.
   */
  ghost predicate Strands(s: State, e: Event, k: Key) {
    match e
    case EvDispatch(p, w) =>
      && LastSender(s, p, k) && s.procs[p].Ready?
      && (w.FailedButLanded? || (w.NotLanded? && s.intents[k].status != Reserved))
    case EvGivenUp(p) => LastSender(s, p, k) && s.intents[k].status != Reserved
    case _ => false
  }

  /** Until a launch of a key is sent, its intent is reserved or says that it is being dispatched. */
  ghost predicate Unsent(s: State) {
    forall k :: k in s.intents && k !in s.sent ==> s.intents[k].status == Reserved || s.intents[k].status == Dispatching
  }

  lemma UnsentStep(s: State, e: Event)
    requires Inv(s) && Unsent(s)
    ensures Unsent(Step(s, e))
  {
    hide RunsOk, Honest;
    assert e.EvFailWritten? && e.p in s.procs ==> PhaseOk(s.intents, s.sent, s.runs, s.procs[e.p]);
    assert e.EvBindWritten? && e.p in s.procs ==> PhaseOk(s.intents, s.sent, s.runs, s.procs[e.p]);
  }

  lemma {:induction false} RunUnsent(events: seq<Event>)
    ensures Unsent(Run(events))
  {
    if events != [] {
      RunUnsent(events[..|events| - 1]);
      RunInv(events[..|events| - 1]);
      UnsentStep(Run(events[..|events| - 1]), events[|events| - 1]);
      hide Inv, Step, Unsent;
    }
  }

  lemma StrandedByStep(s: State, e: Event, k: Key)
    requires Inv(s) && Unsent(s) && Strands(s, e, k)
    ensures Stuck(Step(s, e), k)
  {
    hide IntentsOk, RunsOk, Honest;
    var t := Step(s, e);
    forall q | q in t.procs ensures !MaySend(t, q, k) {
      assert q in s.procs && q != e.p && !MaySend(s, q, k);
    }
  }

  /** Once the intent has left `reserved` nobody becomes a sender, and only senders send. */
  lemma NoNewSender(s: State, e: Event, q: Pid, k: Key)
    requires k in s.intents && s.intents[k].status != Reserved && MaySend(Step(s, e), q, k)
    ensures MaySend(s, q, k)
  {
    hide UpdateLaunch;
  }

  lemma OnlySendersSend(s: State, e: Event, k: Key)
    requires k !in s.sent && forall p :: p in s.procs ==> !MaySend(s, p, k)
    ensures k !in Step(s, e).sent
  {
    hide UpdateLaunch;
    assert e.EvDispatch? && e.p in s.procs ==> !MaySend(s, e.p, k);
  }

  lemma StuckStays(s: State, e: Event, k: Key)
    requires Inv(s) && Stuck(s, k)
    ensures Stuck(Step(s, e), k)
  {
    StepInv(s, e);
    hide Inv, Step, MaySend;
    var t := Step(s, e);
    OnlySendersSend(s, e, k);
    forall q | q in t.procs ensures !MaySend(t, q, k) {
      if MaySend(t, q, k) {
        NoNewSender(s, e, q, k);
        SenderIsThere(s, q, k);
      }
    }
  }

  lemma SenderIsThere(s: State, p: Pid, k: Key)
    requires MaySend(s, p, k)
    ensures p in s.procs
  {
  }

  /** What a step does to one coordinator that may send: it is the one that acts, or it stays. */
  lemma SenderLeaves(s: State, e: Event, p: Pid, k: Key)
    requires Inv(s) && Unsent(s) && MaySend(s, p, k) && Stuck(Step(s, e), k)
    ensures (e.EvDispatch? || e.EvGivenUp?) && e.p == p && k in s.intents && k !in s.sent
    ensures e.EvDispatch? ==> s.procs[p].Ready? && (e.write.FailedButLanded? || (e.write.NotLanded? && s.intents[k].status != Reserved))
    ensures e.EvGivenUp? ==> s.intents[k].status != Reserved
  {
    hide RunsOk, Honest;
    assert PhaseOk(s.intents, s.sent, s.runs, s.procs[p]);
    assert !MaySend(Step(s, e), p, k);
  }

  /** Without a sender no step takes an unsent key out of `reserved`. */
  lemma NobodySends(s: State, e: Event, k: Key)
    requires Inv(s) && (forall p :: p in s.procs ==> !MaySend(s, p, k)) && Stuck(Step(s, e), k)
    ensures Stuck(s, k)
  {
    hide RunsOk, Honest;
    if (e.EvDispatch? || e.EvBindWritten? || e.EvFailWritten?) && e.p in s.procs {
      assert PhaseOk(s.intents, s.sent, s.runs, s.procs[e.p]) && !MaySend(s, e.p, k);
    }
  }

  /** A step leaves a key stuck exactly when it is one of those. */
  lemma StuckExactly(s: State, e: Event, k: Key)
    requires Inv(s) && Unsent(s) && !Stuck(s, k)
    ensures Stuck(Step(s, e), k) <==> Strands(s, e, k)
  {
    hide Inv, Unsent, Step;
    if Strands(s, e, k) { StrandedByStep(s, e, k); }
    if Stuck(Step(s, e), k) {
      if p :| p in s.procs && MaySend(s, p, k) {
        SenderLeaves(s, e, p, k);
        forall q | q in s.procs && q != p ensures !MaySend(s, q, k) {
          if MaySend(s, q, k) { SenderLeaves(s, e, q, k); }
        }
      } else {
        NobodySends(s, e, k);
      }
    }
  }

  /** It happened at some point of the history. */
  ghost predicate EverStrands(events: seq<Event>, k: Key) {
    exists i :: 0 <= i < |events| && Strands(Run(events[..i]), events[i], k)
  }

  lemma LastStranding(events: seq<Event>, e: Event, k: Key)
    ensures EverStrands(events + [e], k) <==> EverStrands(events, k) || Strands(Run(events), e, k)
  {
    hide Strands, Run;
    var all := events + [e];
    assert all[..|events|] == events && all[|events|] == e;
    assert forall i :: 0 <= i < |events| ==> all[..i] == events[..i] && all[i] == events[i];
    if EverStrands(events, k) {
      var i :| 0 <= i < |events| && Strands(Run(events[..i]), events[i], k);
      assert Strands(Run(all[..i]), all[i], k);
    }
    if EverStrands(all, k) {
      var i :| 0 <= i < |all| && Strands(Run(all[..i]), all[i], k);
      assert i < |events| ==> Strands(Run(events[..i]), events[i], k);
    }
  }

  /** Over a whole history a key is stuck exactly when one of those steps happened to it. */
  lemma {:induction false} StuckKeysExactly(events: seq<Event>, k: Key)
    ensures Stuck(Run(events), k) <==> EverStrands(events, k)
  {
    if events == [] {
      NothingStuck(k);
    } else {
      hide Inv, Unsent, Stuck, Strands, EverStrands, Step;
      var before, e := events[..|events| - 1], events[|events| - 1];
      StuckKeysExactly(before, k);
      RunInv(before);
      RunUnsent(before);
      LastStranding(before, e, k);
      assert before + [e] == events;
      if Stuck(Run(before), k) { StuckStays(Run(before), e, k); } else { StuckExactly(Run(before), e, k); }
    }
  }

  lemma NothingStuck(k: Key)
    ensures !Stuck(Run([]), k)
  {
  }

  /** A stuck key has no run and gets none: whoever asks for it again is refused, and nothing is sent. */
  lemma {:induction false} StuckKeyNeverRuns(events: seq<Event>, n: nat, k: Key)
    requires n <= |events| && Stuck(Run(events[..n]), k)
    ensures Stuck(Run(events), k) && k !in Run(events).runs
    ensures forall p :: p in Run(events).procs && Run(events).procs[p].key == k ==> Run(events).procs[p] == Looking(k, false)
  {
    RunInv(events);
    if n == |events| {
      assert events[..n] == events;
    } else {
      var before := events[..|events| - 1];
      assert before[..n] == events[..n];
      StuckKeyNeverRuns(before, n, k);
      RunInv(before);
      StuckStays(Run(before), events[|events| - 1], k);
    }
    StuckPhases(Run(events), k);
    hide Inv, Step, Stuck;
  }

  lemma StuckPhases(s: State, k: Key)
    requires Inv(s) && Stuck(s, k)
    ensures k !in s.runs
    ensures forall p :: p in s.procs && s.procs[p].key == k ==> s.procs[p] == Looking(k, false)
  {
    hide RunsOk, Honest;
    forall p | p in s.procs && s.procs[p].key == k ensures s.procs[p] == Looking(k, false) {
      assert PhaseOk(s.intents, s.sent, s.runs, s.procs[p]) && !MaySend(s, p, k);
    }
  }

  // ---------------------------------------------------------------- what each step does

  /** A status may only rise, not from reserved straight to bound, and a bound run stays; otherwise the update throws. */
  lemma UpdateMeans(i: Intent, to: Status, run: Option<nat>)
    ensures
      var u := UpdateLaunch(i, to, run);
      && (u.Some? <==>
            && Rank(i.status) <= Rank(to) && !(i.status == Reserved && to == Bound)
            && (to == Bound ==> run.Some? || i.run.Some?) && (i.status == Bound && run.Some? ==> run == i.run))
      && (u.Some? ==> u.value.hash == i.hash && u.value.status == to && (run.Some? ==> u.value.run == run) && (run.None? ==> u.value.run == i.run))
  {
  }

  /** Only this coordinator moved. */
  ghost predicate OnlyProc(s: State, t: State, p: Pid) {
    forall q :: q != p ==> (q in t.procs <==> q in s.procs) && (q in s.procs ==> t.procs[q] == s.procs[q])
  }

  /** A new key is reserved with its request; an old one is looked up again, answered if bound, refused to another request. */
  lemma ReserveMeans(s: State, p: Pid, k: Key, hash: nat, w: Write)
    requires p !in s.procs
    ensures
      var t := Step(s, EvReserve(p, k, hash, w));
      && OnlyProc(s, t, p) && t.sent == s.sent && t.runs == s.runs
      && (k !in s.intents ==>
            && t.intents == (if w.NotLanded? then s.intents else s.intents[k := Intent(hash, Reserved, None)])
            && (p in t.procs <==> w.Written?) && (w.Written? ==> t.procs[p] == Looking(k, true)) && t.replies == s.replies)
      && (k in s.intents && s.intents[k].hash != hash ==> t == s)
      && (k in s.intents && s.intents[k].hash == hash && s.intents[k].status == Bound && s.intents[k].run.Some? ==>
            t == s.(replies := s.replies + [Reply(k, s.intents[k].run.value)]))
      && (k in s.intents && s.intents[k].hash == hash && s.intents[k].status != Bound ==>
            && t.intents == s.intents && t.replies == s.replies
            && p in t.procs && t.procs[p] == Looking(k, s.intents[k].status == Reserved))
  {
  }

  /** A run that is found is bound next; without one only an intent that was reserved is dispatched. */
  lemma LookupMeans(s: State, p: Pid)
    requires p in s.procs && s.procs[p].Looking?
    ensures
      var k := s.procs[p].key;
      var t := Step(s, EvLook(p));
      && OnlyProc(s, t, p) && t.intents == s.intents && t.sent == s.sent && t.runs == s.runs && t.replies == s.replies
      && (k in s.runs ==> p in t.procs && t.procs[p] == Binding(k, s.runs[k], false))
      && (k !in s.runs && s.procs[p].mayDispatch ==> p in t.procs && t.procs[p] == Ready(k))
      && (k !in s.runs && !s.procs[p].mayDispatch ==> p !in t.procs)
  {
  }

  /** A reconciliation binds a run that exists, whatever its intent says; giving up leaves everything as it is. */
  lemma ReconciliationMeans(s: State, p: Pid, k: Key)
    ensures
      var t := Step(s, EvReconcileLook(p, k));
      if p !in s.procs && k in s.intents && k in s.runs then
        t == s.(procs := t.procs) && OnlyProc(s, t, p) && p in t.procs && t.procs[p] == Binding(k, s.runs[k], false)
      else t == s
    ensures
      var t := Step(s, EvGivenUp(p));
      t == s.(procs := t.procs) && OnlyProc(s, t, p) && p !in t.procs
  {
  }

  /** The launch goes out once `dispatching` is written, which an intent that has come further refuses. */
  lemma DispatchMeans(s: State, p: Pid, w: Write)
    requires Inv(s) && p in s.procs && s.procs[p].Ready?
    ensures
      var k := s.procs[p].key;
      var t := Step(s, EvDispatch(p, w));
      && OnlyProc(s, t, p) && t.runs == s.runs && t.replies == s.replies && k in s.intents && t.intents.Keys == s.intents.Keys
      && var open := s.intents[k].status == Reserved || s.intents[k].status == Dispatching;
         && (open && w.Written? ==> t.sent == s.sent + {k} && p in t.procs && t.procs[p] == Launching(k))
         && (!open || !w.Written? ==> t.sent == s.sent && p !in t.procs)
         && (open && !w.NotLanded? ==> t.intents[k].status == Dispatching && t.intents[k].run == s.intents[k].run)
         && (!open || w.NotLanded? ==> t.intents == s.intents)
  {
    assert PhaseOk(s.intents, s.sent, s.runs, s.procs[p]);
    hide Inv;
  }

  /** The backend accepts a key once, after its launch was sent, with a run of its own. */
  lemma AcceptanceMeans(s: State, k: Key)
    requires Inv(s)
    ensures
      var t := Step(s, EvAccept(k));
      if k !in s.sent || k in s.runs then t == s
      else
        && t.runs.Keys == s.runs.Keys + {k} && (forall l :: l in s.runs ==> t.runs[l] == s.runs[l] && t.runs[l] != t.runs[k])
        && t.intents == s.intents && t.procs == s.procs && t.sent == s.sent && t.replies == s.replies
  {
    hide IntentsOk, Honest, PhaseOk;
  }

  /** A launch that returns is bound next; one that throws is recorded as unknown next. */
  lemma ReturnMeans(s: State, p: Pid)
    requires p in s.procs && s.procs[p].Launching?
    ensures
      var k := s.procs[p].key;
      var t, u := Step(s, EvReturned(p)), Step(s, EvThrew(p));
      && OnlyProc(s, t, p) && OnlyProc(s, u, p) && t == s.(procs := t.procs) && u == s.(procs := u.procs)
      && p in t.procs && t.procs[p] == (if k in s.runs then Binding(k, s.runs[k], true) else s.procs[p])
      && p in u.procs && u.procs[p] == Failing(k)
  {
  }

  /** Binding writes the run and answers; if that fails after a launch, an unknown outcome is recorded next. */
  lemma BindingMeans(s: State, p: Pid, w: Write)
    requires Inv(s) && p in s.procs && s.procs[p].Binding?
    ensures
      var f := s.procs[p];
      var t := Step(s, EvBindWritten(p, w));
      && OnlyProc(s, t, p) && t.sent == s.sent && t.runs == s.runs && f.key in s.intents
      && t.intents == (if w.NotLanded? then s.intents else s.intents[f.key := Intent(s.intents[f.key].hash, Bound, Some(f.run))])
      && t.replies == s.replies + (if w.Written? then [Reply(f.key, f.run)] else [])
      && (p in t.procs <==> !w.Written? && f.launched) && (p in t.procs ==> t.procs[p] == Failing(f.key))
  {
    RecoveryBindingIsLegal(s, p);
    hide Inv;
  }

  /** An unknown outcome is recorded unless the run has been bound meanwhile. */
  lemma FailureMeans(s: State, p: Pid, w: Write)
    requires Inv(s) && p in s.procs && s.procs[p].Failing?
    ensures
      var k := s.procs[p].key;
      var t := Step(s, EvFailWritten(p, w));
      && OnlyProc(s, t, p) && p !in t.procs && t.sent == s.sent && t.runs == s.runs && t.replies == s.replies && k in s.intents
      && t.intents == (if w.NotLanded? || s.intents[k].status == Bound then s.intents
                       else s.intents[k := Intent(s.intents[k].hash, UnknownOutcome, s.intents[k].run)])
  {
    assert PhaseOk(s.intents, s.sent, s.runs, s.procs[p]);
    UpdateMeans(s.intents[s.procs[p].key], UnknownOutcome, None);
    hide Inv, UpdateLaunch;
  }

  /** A launch that nothing disturbs: reserved, dispatched once, bound and answered. */
  lemma UninterruptedLaunch(s: State, p: Pid, k: Key, hash: nat)
    requires Inv(s) && p !in s.procs && k !in s.intents
    ensures
      var sent := Step(Step(Step(s, EvReserve(p, k, hash, Written)), EvLook(p)), EvDispatch(p, Written));
      var t := Step(Step(Step(sent, EvAccept(k)), EvReturned(p)), EvBindWritten(p, Written));
      && k in t.runs && t.intents == s.intents[k := Intent(hash, Bound, Some(t.runs[k]))]
      && t.replies == s.replies + [Reply(k, t.runs[k])] && t.procs == s.procs && t.sent == s.sent + {k}
  {
    assert k !in s.runs && k !in s.sent;
    hide Inv, Reserve, Look, Dispatch, Accept, Returned, BindWritten;
    FirstHalf(s, p, k, hash);
    var sent := Step(Step(Step(s, EvReserve(p, k, hash, Written)), EvLook(p)), EvDispatch(p, Written));
    SecondHalf(sent, p, k);
    assert s.procs[p := Launching(k)] - {p} == s.procs;
    assert s.intents[k := Intent(hash, Dispatching, None)][k := Intent(hash, Bound, Some(s.nextRun))]
           == s.intents[k := Intent(hash, Bound, Some(s.nextRun))];
  }

  lemma FirstHalf(s: State, p: Pid, k: Key, hash: nat)
    requires p !in s.procs && k !in s.intents && k !in s.runs
    ensures Step(Step(Step(s, EvReserve(p, k, hash, Written)), EvLook(p)), EvDispatch(p, Written))
            == s.(intents := s.intents[k := Intent(hash, Dispatching, None)], procs := s.procs[p := Launching(k)], sent := s.sent + {k})
  {
    var reserved := Step(s, EvReserve(p, k, hash, Written));
    assert reserved == s.(intents := s.intents[k := Intent(hash, Reserved, None)], procs := s.procs[p := Looking(k, true)]);
  }

  lemma SecondHalf(s: State, p: Pid, k: Key)
    requires p in s.procs && s.procs[p] == Launching(k) && k in s.sent && k !in s.runs
    requires k in s.intents && s.intents[k].status == Dispatching && s.intents[k].run.None?
    ensures
      var t := Step(Step(Step(s, EvAccept(k)), EvReturned(p)), EvBindWritten(p, Written));
      && t.runs == s.runs[k := s.nextRun] && t.intents == s.intents[k := Intent(s.intents[k].hash, Bound, Some(s.nextRun))]
      && t.replies == s.replies + [Reply(k, s.nextRun)] && t.procs == s.procs - {p} && t.sent == s.sent
  {
    assert s.procs[p := Binding(k, s.nextRun, true)] - {p} == s.procs - {p};
  }

  /** A run that exists is found by the next launch of its key, bound and answered, without another dispatch. */
  lemma FoundRunIsBound(s: State, p: Pid, k: Key)
    requires Inv(s) && p !in s.procs && k in s.runs && s.intents[k].status != Bound
    ensures
      var t := Step(Step(Step(s, EvReserve(p, k, s.intents[k].hash, Written)), EvLook(p)), EvBindWritten(p, Written));
      && t.intents == s.intents[k := Intent(s.intents[k].hash, Bound, Some(s.runs[k]))]
      && t.replies == s.replies + [Reply(k, s.runs[k])] && t.sent == s.sent && t.procs == s.procs
  {
    assert k in s.sent && k in s.intents && s.intents[k].status != Reserved;
    hide Inv;
    assert s.procs[p := Binding(k, s.runs[k], false)] - {p} == s.procs;
  }

  // ---------------------------------------------------------------- the coordinator

  /** The coordinators of all processes, on top of the durable intents and the backend. */
  class LaunchCoordinator {
    var intents: map<Key, Intent>
    var procs: map<Pid, Phase>
    var sent: set<Key>
    var runs: map<Key, nat>
    var nextRun: nat
    var replies: seq<Reply>

    ghost function View(): State
      reads this
    {
      State(intents, procs, sent, runs, nextRun, replies)
    }

    ghost predicate Valid()
      reads this
    {
      Inv(View())
    }

    constructor ()
      ensures Valid() && View() == Init
    {
      intents, procs, sent, runs, nextRun, replies := map[], map[], {}, map[], 0, [];
      new;
      RunInv([]);
    }

    /** `updateLaunch`: the stored intent changes only if the transition is legal and the write lands. */
    method Update(k: Key, to: Status, run: Option<nat>, w: Write) returns (stored: bool)
      requires k in intents
      modifies `intents
      ensures View() == Store(old(View()), k, UpdateLaunch(old(intents)[k], to, run), w)
      ensures stored <==> UpdateLaunch(old(intents)[k], to, run).Some? && w == Written
    {
      var intent := intents[k];
      if !Allowed(intent.status, to) { return false; }
      var bound := if run.Some? then run else intent.run;
      if to == Bound && bound.None? { return false; }
      if intent.status == Bound && bound != intent.run { return false; }
      if w != NotLanded { intents := intents[k := intent.(status := to, run := bound)]; }
      stored := w == Written;
    }

    /** `launch` up to its lookup: the reservation, or what an earlier one came to. */
    method ReserveLaunch(p: Pid, k: Key, hash: nat, w: Write) returns (bound: Option<nat>)
      requires Valid() && p !in procs
      modifies this
      ensures Valid() && View() == Reserve(old(View()), p, k, hash, w)
      ensures bound.Some? ==> k in intents && intents[k].status == Bound && intents[k].run == bound
    {
      ReserveInv(View(), p, k, hash, w);
      bound := None;
      if k in intents {
        var intent := intents[k];
        if intent.hash != hash { return; }
        if intent.status == Bound && intent.run.Some? {
          bound := intent.run;
          replies := replies + [Reply(k, intent.run.value)];
        } else {
          procs := procs[p := Looking(k, intent.status == Reserved)];
        }
      } else {
        if w != NotLanded { intents := intents[k := Intent(hash, Reserved, None)]; }
        if w == Written { procs := procs[p := Looking(k, true)]; }
      }
    }

    method TakeLookup(p: Pid)
      requires Valid() && p in procs && procs[p].Looking?
      modifies this
      ensures Valid() && View() == Look(old(View()), p)
    {
      LookInv(View(), p, 0);
      var k := procs[p].key;
      if k in runs {
        procs := procs[p := Binding(k, runs[k], false)];
      } else if procs[p].mayDispatch {
        procs := procs[p := Ready(k)];
      } else {
        procs := procs - {p};
      }
    }

    method SendLaunch(p: Pid, w: Write)
      requires Valid() && p in procs && procs[p].Ready?
      modifies this
      ensures Valid() && View() == Dispatch(old(View()), p, w)
    {
      DispatchInv(View(), p, w);
      assert PhaseOk(intents, sent, runs, procs[p]);
      hide Inv, UpdateLaunch;
      var k := procs[p].key;
      var stored := Update(k, Dispatching, None, w);
      if stored {
        sent := sent + {k};
        procs := procs[p := Launching(k)];
      } else {
        procs := procs - {p};
      }
    }

    method BindRun(p: Pid, w: Write)
      requires Valid() && p in procs && procs[p].Binding?
      modifies this
      ensures Valid() && View() == BindWritten(old(View()), p, w)
    {
      BindWrittenInv(View(), p, w);
      assert PhaseOk(intents, sent, runs, procs[p]);
      hide Inv, UpdateLaunch;
      var k, run, launched := procs[p].key, procs[p].run, procs[p].launched;
      var stored := Update(k, Bound, Some(run), w);
      if stored {
        replies := replies + [Reply(k, run)];
        procs := procs - {p};
      } else if launched {
        procs := procs[p := Failing(k)];
      } else {
        procs := procs - {p};
      }
    }

    method RecordUnknown(p: Pid, w: Write)
      requires Valid() && p in procs && procs[p].Failing?
      modifies this
      ensures Valid() && View() == FailWritten(old(View()), p, w)
    {
      FailWrittenInv(View(), p, w);
      assert PhaseOk(intents, sent, runs, procs[p]);
      hide Inv, UpdateLaunch;
      var _ := Update(procs[p].key, UnknownOutcome, None, w);
      procs := procs - {p};
    }
  }
}
