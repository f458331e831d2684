/**
 * The permit ledger of src/concurrency-limited-agent-adapter.ts, which keeps one scheduler permit for every
 * run that may still be executing.
 *
 * `launch`, `findByIdempotencyKey`, `status` and `result` are cut at their awaits.  Each piece between two
 * awaits is one `Event`; the backend that the adapter talks to is a part of the state, because what it
 * answers must come from the runs it has accepted.
 */
module PermitLedger {
  import opened Common

  /** Idempotency keys and run ids; only their equality matters. */
  type Key = nat
  type RunId = nat

  /** A permit kept for a run, with the idempotency key it was taken for. */
  datatype Held = Held(key: Key, permit: nat)

  /** The local variables of a `recover` call that waits for the backend lookup, and the answer once read. */
  datatype Lookup = Lookup(unresolved: Option<nat>, recovery: Option<nat>,
                           retainedRun: Option<RunId>, retainedPermit: Option<Held>,
                           reply: Option<Option<RunId>>)

  /** A `recover` call that waits for the status of the run it found; `guarded` if it must clean up after. */
  datatype Inspection = Inspection(run: RunId, guarded: bool)

  /**
   * `live` is the permit that the scheduler counts for each admission id.  `created` is the backend: the run
   * it accepted for each key.
   */
  datatype State = State(
    live: map<Key, nat>, nextPermit: nat,
    launching: map<Key, nat>,
    releases: map<RunId, Held>,
    runIds: map<Key, RunId>,
    unresolvedLaunches: map<Key, nat>,
    unresolvedRecoveries: map<Key, nat>,
    lookups: map<Key, Lookup>,
    inspecting: map<Key, Inspection>,
    recoveringRuns: set<RunId>,
    terminalRuns: set<RunId>,
    created: map<Key, RunId>)

  const Init := State(map[], 0, map[], map[], map[], map[], map[], map[], map[], {}, {}, map[])

  function Get<V>(m: map<nat, V>, k: nat): Option<V> {
    if k in m then Some(m[k]) else None
  }

  // ---------------------------------------------------------------- segments

  /** Calling a release closure: it frees its own permit and nothing else. */
  function Drop(live: map<Key, nat>, key: Key, permit: nat): map<Key, nat> {
    if key in live && live[key] == permit then live - {key} else live
  }

  /** The private `release` of the adapter. */
  function ReleaseRun(s: State, run: RunId): (t: State)
    ensures t.created == s.created
  {
    if run !in s.releases then s
    else
      var held := s.releases[run];
      s.(live := Drop(s.live, held.key, held.permit), runIds := s.runIds - {held.key}, releases := s.releases - {run})
  }

  function LaunchAdmitted(s: State, k: Key): State {
    if k in s.live then s
    else s.(live := s.live[k := s.nextPermit], launching := s.launching[k := s.nextPermit], nextPermit := s.nextPermit + 1)
  }

  function LaunchReturned(s: State, k: Key): (t: State)
    ensures t.created == s.created
  {
    if k !in s.launching || k !in s.created then s
    else
      var run, permit := s.created[k], s.launching[k];
      var known := run in s.releases;
      var same := known && s.releases[run].key == k;
      s.(launching := s.launching - {k},
         releases := if known then s.releases else s.releases[run := Held(k, permit)],
         runIds := if known then s.runIds else s.runIds[k := run],
         live := if same then Drop(s.live, k, permit) else s.live,
         unresolvedLaunches := if known && !same then s.unresolvedLaunches[k := permit] else s.unresolvedLaunches)
  }

  function LaunchThrew(s: State, k: Key): State {
    if k !in s.launching then s
    else s.(launching := s.launching - {k}, unresolvedLaunches := s.unresolvedLaunches[k := s.launching[k]])
  }

  /** What `recover` finds about its key when it starts. */
  function Remembered(s: State, k: Key): Lookup {
    var run := Get(s.runIds, k);
    Lookup(Get(s.unresolvedLaunches, k), Get(s.unresolvedRecoveries, k), run,
           if run.None? then None else Get(s.releases, run.value), None)
  }

  /** `idTaken`: the scheduler has this id in its queue, so `acquireExisting` refuses it. */
  function RecoverStart(s: State, k: Key, idTaken: bool): State {
    if k in s.lookups || k in s.inspecting then s
    else
      var kept := Remembered(s, k);
      var reserve := kept.unresolved.None? && kept.recovery.None? && kept.retainedPermit.None?;
      if reserve && (idTaken || k in s.live) then s
      else
        s.(live := if reserve then s.live[k := s.nextPermit] else s.live,
           nextPermit := if reserve then s.nextPermit + 1 else s.nextPermit,
           lookups := s.lookups[k := if reserve then kept.(recovery := Some(s.nextPermit)) else kept])
  }

  /** The backend reads its table and answers the lookup. */
  function LookupAnswered(s: State, k: Key): State {
    if k !in s.lookups || s.lookups[k].reply.Some? then s
    else s.(lookups := s.lookups[k := s.lookups[k].(reply := Some(Get(s.created, k)))])
  }

  function RecoverThrew(s: State, k: Key): State {
    if k !in s.lookups then s
    else
      var f := s.lookups[k];
      s.(lookups := s.lookups - {k},
         unresolvedRecoveries :=
           if f.recovery.Some? then s.unresolvedRecoveries[k := f.recovery.value] else s.unresolvedRecoveries)
  }

  function DropOption(live: map<Key, nat>, k: Key, permit: Option<nat>): map<Key, nat> {
    if permit.Some? then Drop(live, k, permit.value) else live
  }

  function RecoveredNothing(s: State, k: Key, f: Lookup): (t: State)
    ensures t.created == s.created
  {
    var freed := s.(live := DropOption(DropOption(s.live, k, f.unresolved), k, f.recovery));
    var ended := if f.retainedRun.Some? then ReleaseRun(freed, f.retainedRun.value) else freed;
    ended.(unresolvedLaunches := ended.unresolvedLaunches - {k}, unresolvedRecoveries := ended.unresolvedRecoveries - {k})
  }

  /** The permit of a launch that threw goes to the run the lookup found. */
  function RecoveredLaunch(s: State, k: Key, permit: nat, run: RunId): (t: State)
    ensures t.created == s.created
  {
    var known := run in s.releases;
    var conflict := known && s.releases[run].key != k;
    s.(unresolvedLaunches := s.unresolvedLaunches - {k},
       releases := if known then s.releases else s.releases[run := Held(k, permit)],
       live := if known && !conflict then Drop(s.live, k, permit) else s.live,
       runIds := if conflict then s.runIds else s.runIds[k := run],
       inspecting := if conflict then s.inspecting else s.inspecting[k := Inspection(run, false)])
  }

  /** So does a permit that `recover` itself reserved. */
  function RecoveredFresh(s: State, k: Key, permit: nat, run: RunId): (t: State)
    ensures t.created == s.created
  {
    var over := run in s.terminalRuns;
    s.(unresolvedRecoveries := s.unresolvedRecoveries - {k},
       recoveringRuns := s.recoveringRuns + {run},
       inspecting := s.inspecting[k := Inspection(run, true)],
       live := if over then Drop(s.live, k, permit) else s.live,
       releases := if over then s.releases else s.releases[run := Held(k, permit)],
       runIds := if over then s.runIds else s.runIds[k := run])
  }

  /** The run is bound already, so a reserved permit is one too many. */
  function RecoveredBound(s: State, k: Key, recovery: Option<nat>): (t: State)
    ensures t.created == s.created
  {
    s.(live := DropOption(s.live, k, recovery), unresolvedRecoveries := s.unresolvedRecoveries - {k})
  }

  function RecoveredRun(s: State, k: Key, f: Lookup, run: RunId): (t: State)
    ensures t.created == s.created
  {
    if f.unresolved.Some? then RecoveredLaunch(s, k, f.unresolved.value, run)
    else if run in s.releases then RecoveredBound(s, k, f.recovery)
    else if f.retainedPermit.Some? && f.retainedRun == Some(run) then s
    else if f.recovery.None? then
      EndGuard(s, run, true)
    else RecoveredFresh(s, k, f.recovery.value, run)
  }

  function RecoverResumed(s: State, k: Key): (t: State)
    ensures t.created == s.created
  {
    if k !in s.lookups || s.lookups[k].reply.None? then s
    else
      var f := s.lookups[k];
      var resumed := s.(lookups := s.lookups - {k});
      match f.reply.value
      case None => RecoveredNothing(resumed, k, f)
      case Some(run) => RecoveredRun(resumed, k, f, run)
  }

  datatype Seen = Failed | Running | Terminal

  /** The `finally` of `recover`. */
  function EndGuard(s: State, run: RunId, guarded: bool): (t: State)
    ensures t.created == s.created
  {
    s.(recoveringRuns := if guarded then s.recoveringRuns - {run} else s.recoveringRuns,
       terminalRuns := if guarded then s.terminalRuns - {run} else s.terminalRuns)
  }

  function EndInspection(s: State, k: Key): State {
    s.(inspecting := s.inspecting - {k})
  }

  function InspectResumed(s: State, k: Key, seen: Seen): (t: State)
    ensures t.created == s.created
  {
    if k !in s.inspecting then s
    else
      var i := s.inspecting[k];
      var resumed := EndInspection(s, k);
      EndGuard(if seen.Terminal? then ReleaseRun(resumed, i.run) else resumed, i.run, i.guarded)
  }

  /** A terminal run is remembered while it is being recovered. */
  function Marked(s: State, run: RunId): State {
    s.(terminalRuns := if run in s.recoveringRuns then s.terminalRuns + {run} else s.terminalRuns)
  }

  /** `status` or `result` saw this run terminal. */
  function TerminalObserved(s: State, run: RunId): (t: State)
    ensures t.created == s.created
  {
    ReleaseRun(Marked(s, run), run)
  }

  datatype Event =
    | BackendAccepts(key: Key, run: RunId)
    | EvLaunchAdmitted(key: Key)
    | EvLaunchReturned(key: Key)
    | EvLaunchThrew(key: Key)
    | EvRecoverStart(key: Key, idTaken: bool)
    | EvLookupAnswered(key: Key)
    | EvRecoverThrew(key: Key)
    | EvRecoverResumed(key: Key)
    | EvInspectResumed(key: Key, seen: Seen)
    | EvTerminalObserved(run: RunId)

  /** The backend keeps the one run it accepted for a key. */
  function Step(s: State, e: Event): State {
    match e
    case BackendAccepts(k, run) => if k in s.created then s else s.(created := s.created[k := run])
    case EvLaunchAdmitted(k) => LaunchAdmitted(s, k)
    case EvLaunchReturned(k) => LaunchReturned(s, k)
    case EvLaunchThrew(k) => LaunchThrew(s, k)
    case EvRecoverStart(k, idTaken) => RecoverStart(s, k, idTaken)
    case EvLookupAnswered(k) => LookupAnswered(s, k)
    case EvRecoverThrew(k) => RecoverThrew(s, k)
    case EvRecoverResumed(k) => RecoverResumed(s, k)
    case EvInspectResumed(k, seen) => InspectResumed(s, k, seen)
    case EvTerminalObserved(run) => TerminalObserved(s, run)
  }

  function Run(events: seq<Event>): State {
    if events == [] then Init else Step(Run(events[..|events| - 1]), events[|events| - 1])
  }

  // ---------------------------------------------------------------- one holder per permit

  /** The places a permit can be kept; `Fresh` is a local variable of a suspended `recover`. */
  datatype Holder = Launch | Bound | UnresolvedLaunch | UnresolvedRecovery | Fresh

  /** Everything the state says about one key and the run the backend accepted for it. */
  datatype Slice = Slice(live: Option<nat>, launching: Option<nat>, run: Option<RunId>, held: Option<Held>,
                         unresolvedLaunch: Option<nat>, unresolvedRecovery: Option<nat>,
                         lookup: Option<Lookup>, inspecting: Option<Inspection>, created: Option<RunId>,
                         recovering: bool)
  {
    /** The permit kept in place `h`. */
    function Kept(h: Holder): Option<nat> {
      match h
      case Launch => launching
      case Bound => if held.Some? then Some(held.value.permit) else None
      case UnresolvedLaunch => unresolvedLaunch
      case UnresolvedRecovery => unresolvedRecovery
      case Fresh => if lookup.Some? && unresolvedRecovery.None? then lookup.value.recovery else None
    }

    /** In how many places something is kept. */
    function Places(): nat {
      One(Kept(Launch)) + One(Kept(Bound)) + One(Kept(UnresolvedLaunch)) + One(Kept(UnresolvedRecovery)) + One(Kept(Fresh))
    }

    predicate Matches(h: Holder) {
      Kept(h).Some? ==> Kept(h) == live
    }

    /** The counted permit is kept in exactly one place, and nothing else is kept. */
    predicate OneHolder() {
      && Places() == One(live)
      && Matches(Launch) && Matches(Bound) && Matches(UnresolvedLaunch) && Matches(UnresolvedRecovery) && Matches(Fresh)
    }

    /** What a suspended lookup remembers is still true, or has been settled meanwhile. */
    predicate LookupOk(f: Lookup) {
      && (f.unresolved.Some? ==> unresolvedLaunch == f.unresolved)
      && (f.recovery.Some? ==> f.recovery == live && f.unresolved.None? && f.retainedPermit.None?)
      && (f.recovery.None? ==> unresolvedRecovery.None?)
      && (f.unresolved.None? && f.recovery.None? ==> f.retainedPermit.Some?)
      && (f.retainedRun.Some? <==> f.retainedPermit.Some?)
      && (f.retainedRun.Some? ==> created == f.retainedRun)
      && (f.retainedRun.Some? && f.reply.Some? ==> f.reply.value.Some?)
      && (f.reply.Some? && f.reply.value.Some? ==> created == f.reply.value)
    }

    /** What is left of `Ok` when keys may share runs: a counted permit may also be kept nowhere. */
    predicate Sound(k: Key) {
      && Places() <= One(live)
      && Matches(Launch) && Matches(Bound) && Matches(UnresolvedLaunch) && Matches(UnresolvedRecovery) && Matches(Fresh)
      && (run.Some? <==> held.Some?)
      && (run.Some? ==> created == run && held.value.key == k)
      && (lookup.Some? ==> LookupOk(lookup.value) && inspecting.None?)
      && (inspecting.Some? ==> created == Some(inspecting.value.run))
    }

    /** Counted, and kept nowhere. */
    predicate Astray() { live.Some? && Places() == 0 }

    predicate Ok(k: Key) {
      && OneHolder()
      && (run.Some? <==> held.Some?)
      && (run.Some? ==> created == run && held.value.key == k)
      && (lookup.Some? ==> LookupOk(lookup.value) && inspecting.None?)
      && (inspecting.Some? ==> created == Some(inspecting.value.run))
      && (recovering ==> inspecting.Some? && inspecting.value.guarded)
    }
  }

  function One(o: Option<nat>): nat { if o.Some? then 1 else 0 }

  function Of(s: State, k: Key): Slice {
    Slice(Get(s.live, k), Get(s.launching, k), Get(s.runIds, k),
          if k in s.runIds then Get(s.releases, s.runIds[k]) else None,
          Get(s.unresolvedLaunches, k), Get(s.unresolvedRecoveries, k), Get(s.lookups, k), Get(s.inspecting, k),
          Get(s.created, k), k in s.created && s.created[k] in s.recoveringRuns)
  }

  predicate KeyOk(s: State, k: Key) { Of(s, k).Ok(k) }

  /** A run that is held is bound to the key it is held for. */
  ghost predicate RunsHeld(s: State) {
    forall r :: r in s.releases ==> s.releases[r].key in s.runIds && s.runIds[s.releases[r].key] == r
  }

  /** No run is being recovered that the backend has not accepted. */
  ghost predicate RunsOk(s: State) {
    && RunsHeld(s)
    && s.terminalRuns <= s.recoveringRuns <= s.created.Values
  }

  ghost predicate Injective(created: map<Key, RunId>) {
    forall k, l :: k in created && l in created && created[k] == created[l] ==> k == l
  }

  ghost predicate Inv(s: State) {
    (forall k :: KeyOk(s, k)) && RunsOk(s)
  }

  // ---------------------------------------------------------------- one small machine per key

  /** What an event means for one key; `permit` is the number a fresh permit would get. */
  datatype KeyEvent =
    | Admitted(permit: nat) | Returned | Threw | Start(permit: nat, idTaken: bool) | Answered | LookupThrew
    | Resumed | Inspected(seen: Seen) | Ended | Nothing

  function Project(s: State, e: Event, k: Key): KeyEvent {
    match e
    case BackendAccepts(_, _) => Nothing
    case EvLaunchAdmitted(l) => if l == k then Admitted(s.nextPermit) else Nothing
    case EvLaunchReturned(l) => if l == k then Returned else Nothing
    case EvLaunchThrew(l) => if l == k then Threw else Nothing
    case EvRecoverStart(l, idTaken) => if l == k then Start(s.nextPermit, idTaken) else Nothing
    case EvLookupAnswered(l) => if l == k then Answered else Nothing
    case EvRecoverThrew(l) => if l == k then LookupThrew else Nothing
    case EvRecoverResumed(l) => if l == k then Resumed else Nothing
    case EvInspectResumed(l, seen) => if l == k then Inspected(seen) else Nothing
    case EvTerminalObserved(run) => if Get(s.created, k) == Some(run) then Ended else Nothing
  }

  function Over(x: Slice): Slice {
    if x.run.Some? then x.(live := None, run := None, held := None) else x
  }

  function KeyResumed(x: Slice, k: Key, f: Lookup): Slice {
    if f.reply.None? then x
    else
      var y := x.(lookup := None);
      if f.reply.value.None? then y.(live := None, unresolvedLaunch := None, unresolvedRecovery := None)
      else if f.unresolved.Some? then
        y.(unresolvedLaunch := None, run := f.reply.value, held := Some(Held(k, f.unresolved.value)),
           inspecting := Some(Inspection(f.reply.value.value, false)))
      else if f.recovery.None? then y
      else
        y.(unresolvedRecovery := None, run := f.reply.value, held := Some(Held(k, f.recovery.value)),
           inspecting := Some(Inspection(f.reply.value.value, true)), recovering := true)
  }

  /** The ledger of a single key, with none of the tests that guard against other keys. */
  function KeyStep(x: Slice, k: Key, e: KeyEvent): Slice {
    match e
    case Nothing => x
    case Admitted(p) => if x.live.Some? then x else x.(live := Some(p), launching := Some(p))
    case Returned =>
      if x.launching.None? || x.created.None? then x
      else x.(launching := None, run := x.created, held := Some(Held(k, x.launching.value)))
    case Threw => if x.launching.None? then x else x.(launching := None, unresolvedLaunch := x.launching)
    case Start(p, idTaken) =>
      if x.lookup.Some? || x.inspecting.Some? then x
      else if x.unresolvedLaunch.Some? || x.unresolvedRecovery.Some? || x.held.Some? then
        x.(lookup := Some(Lookup(x.unresolvedLaunch, x.unresolvedRecovery, x.run, x.held, None)))
      else if idTaken || x.live.Some? then x
      else x.(live := Some(p), lookup := Some(Lookup(None, Some(p), None, None, None)))
    case Answered =>
      if x.lookup.None? || x.lookup.value.reply.Some? then x
      else x.(lookup := Some(x.lookup.value.(reply := Some(x.created))))
    case LookupThrew =>
      if x.lookup.None? then x
      else if x.lookup.value.recovery.None? then x.(lookup := None)
      else x.(lookup := None, unresolvedRecovery := x.lookup.value.recovery)
    case Resumed => if x.lookup.None? then x else KeyResumed(x, k, x.lookup.value)
    case Inspected(seen) =>
      if x.inspecting.None? then x
      else
        var y := x.(inspecting := None, recovering := x.recovering && !x.inspecting.value.guarded);
        if seen.Terminal? then Over(y) else y
    case Ended => Over(x)
  }

  lemma KeyStepOk(x: Slice, k: Key, e: KeyEvent)
    requires x.Ok(k)
    ensures KeyStep(x, k, e).Ok(k)
  {
  }

  /** Key `k` has nothing to do with the run `run` that the backend gave to key `l`. */
  ghost predicate Foreign(s: State, l: Key, run: RunId, k: Key) {
    && k != l && l in s.created && s.created[l] == run
    && (k in s.created ==> s.created[k] != run)
    && (k in s.runIds ==> Get(s.created, k) == Some(s.runIds[k]))
  }

  lemma RecoveredLaunchOther(s: State, l: Key, permit: nat, run: RunId, k: Key)
    requires k != l && (k in s.runIds && s.runIds[k] == run ==> run in s.releases)
    ensures Of(RecoveredLaunch(s, l, permit, run), k) == Of(s, k)
  {
  }

  lemma RecoveredFreshOther(s: State, l: Key, permit: nat, run: RunId, k: Key)
    requires Foreign(s, l, run, k)
    ensures Of(RecoveredFresh(s, l, permit, run), k) == Of(s, k)
  {
  }

  lemma RecoveredBoundOther(s: State, l: Key, recovery: Option<nat>, k: Key)
    requires k != l
    ensures Of(RecoveredBound(s, l, recovery), k) == Of(s, k)
  {
  }

  lemma EndGuardOther(s: State, run: RunId, guarded: bool, k: Key)
    requires k in s.created ==> s.created[k] != run
    ensures Of(EndGuard(s, run, guarded), k) == Of(s, k)
  {
  }

  lemma RecoveredRunOther(s: State, l: Key, f: Lookup, run: RunId, k: Key)
    requires Foreign(s, l, run, k)
    ensures Of(RecoveredRun(s, l, f, run), k) == Of(s, k)
  {
    hide Of, RecoveredLaunch, RecoveredFresh, RecoveredBound, EndGuard;
    if f.unresolved.Some? { RecoveredLaunchOther(s, l, f.unresolved.value, run, k); }
    else if run in s.releases { RecoveredBoundOther(s, l, f.recovery, k); }
    else if f.recovery.Some? { RecoveredFreshOther(s, l, f.recovery.value, run, k); }
    else { EndGuardOther(s, run, true, k); }
  }

  ghost predicate BoundOk(x: Slice, k: Key) {
    (x.run.Some? <==> x.held.Some?) && (x.held.Some? ==> x.held.value.key == k && x.live == Some(x.held.value.permit))
  }

  lemma ReleaseRunOf(s: State, run: RunId, k: Key)
    requires BoundOk(Of(s, k), k) && RunsHeld(s)
    ensures Of(ReleaseRun(s, run), k) == if Get(s.runIds, k) == Some(run) then Over(Of(s, k)) else Of(s, k)
  {
    assert Get(s.runIds, k) != Some(run) && run in s.releases ==> s.releases[run].key != k;
  }

  lemma RecoveredNothingOf(s: State, l: Key, f: Lookup, k: Key)
    requires f.retainedRun.None?
    requires l == k ==> l !in s.lookups && Of(s, l).(lookup := Some(f)).Ok(l) && f.reply == Some(None)
    ensures Of(RecoveredNothing(s, l, f), k)
            == if l == k then KeyResumed(Of(s, k).(lookup := Some(f)), k, f) else Of(s, k)
  {
  }

  lemma RecoveredRunOf(s: State, l: Key, f: Lookup, run: RunId)
    requires l !in s.lookups && Of(s, l).(lookup := Some(f)).Ok(l) && f.reply == Some(Some(run))
    requires run in s.releases ==> s.releases[run].key == l
    requires RunsOk(s) && Injective(s.created)
    ensures Of(RecoveredRun(s, l, f, run), l) == KeyResumed(Of(s, l).(lookup := Some(f)), l, f)
  {
  }

  // ---- each event acts on its own key as that machine does, and on no other

  lemma LaunchAdmittedOf(s: State, l: Key, k: Key)
    ensures Of(LaunchAdmitted(s, l), k) == if l == k then KeyStep(Of(s, k), k, Admitted(s.nextPermit)) else Of(s, k)
  {
  }

  lemma LaunchReturnedOwn(s: State, k: Key)
    requires KeyOk(s, k) && RunsOk(s) && Injective(s.created)
    requires k in s.created && s.created[k] in s.releases ==> KeyOk(s, s.releases[s.created[k]].key)
    ensures Of(LaunchReturned(s, k), k) == KeyStep(Of(s, k), k, Returned)
  {
  }

  lemma LaunchReturnedOther(s: State, l: Key, k: Key)
    requires KeyOk(s, k) && KeyOk(s, l) && RunsOk(s) && Injective(s.created) && l != k
    requires l in s.created && s.created[l] in s.releases ==> KeyOk(s, s.releases[s.created[l]].key)
    ensures Of(LaunchReturned(s, l), k) == Of(s, k)
  {
  }

  lemma LaunchReturnedOf(s: State, l: Key, k: Key)
    requires KeyOk(s, k) && KeyOk(s, l) && RunsOk(s) && Injective(s.created)
    requires l in s.created && s.created[l] in s.releases ==> KeyOk(s, s.releases[s.created[l]].key)
    ensures Of(LaunchReturned(s, l), k) == if l == k then KeyStep(Of(s, k), k, Returned) else Of(s, k)
  {
    hide Of, KeyOk, RunsOk, Injective, LaunchReturned, KeyStep;
    if l == k { LaunchReturnedOwn(s, k); } else { LaunchReturnedOther(s, l, k); }
  }

  lemma LaunchThrewOf(s: State, l: Key, k: Key)
    ensures Of(LaunchThrew(s, l), k) == if l == k then KeyStep(Of(s, k), k, Threw) else Of(s, k)
  {
  }

  lemma RecoverStartOther(s: State, l: Key, idTaken: bool, k: Key)
    requires k != l
    ensures Of(RecoverStart(s, l, idTaken), k) == Of(s, k)
  {
  }

  lemma OfStarted(s: State, k: Key, live: map<Key, nat>, next: nat, f: Lookup)
    ensures Of(s.(live := live, nextPermit := next, lookups := s.lookups[k := f]), k)
            == Of(s, k).(live := Get(live, k), lookup := Some(f))
  {
  }

  /** What a lookup remembers, in terms of the slice. */
  lemma RememberedOf(s: State, k: Key)
    ensures
      var x := Of(s, k);
      && Remembered(s, k) == Lookup(x.unresolvedLaunch, x.unresolvedRecovery, x.run, x.held, None)
      && (k in s.lookups <==> x.lookup.Some?) && (k in s.inspecting <==> x.inspecting.Some?)
      && x.live == Get(s.live, k)
  {
  }

  lemma RecoverStartOwn(s: State, k: Key, idTaken: bool)
    requires Of(s, k).run.Some? <==> Of(s, k).held.Some?
    ensures Of(RecoverStart(s, k, idTaken), k) == KeyStep(Of(s, k), k, Start(s.nextPermit, idTaken))
  {
    hide Of, Remembered;
    var kept := Remembered(s, k);
    RememberedOf(s, k);
    OfStarted(s, k, s.live, s.nextPermit, kept);
    OfStarted(s, k, s.live[k := s.nextPermit], s.nextPermit + 1, kept.(recovery := Some(s.nextPermit)));
  }

  lemma LookupAnsweredOf(s: State, l: Key, k: Key)
    ensures Of(LookupAnswered(s, l), k) == if l == k then KeyStep(Of(s, k), k, Answered) else Of(s, k)
  {
  }

  lemma RecoverThrewOf(s: State, l: Key, k: Key)
    ensures Of(RecoverThrew(s, l), k) == if l == k then KeyStep(Of(s, k), k, LookupThrew) else Of(s, k)
  {
  }

  lemma RecoverResumedOf(s: State, l: Key, k: Key)
    requires KeyOk(s, k) && KeyOk(s, l) && RunsOk(s) && Injective(s.created)
    requires l in s.created && s.created[l] in s.releases ==> KeyOk(s, s.releases[s.created[l]].key)
    ensures Of(RecoverResumed(s, l), k) == if l == k then KeyStep(Of(s, k), k, Resumed) else Of(s, k)
  {
    if l in s.lookups && s.lookups[l].reply.Some? {
      var f := s.lookups[l];
      var t := s.(lookups := s.lookups - {l});
      assert Of(t, l).(lookup := Some(f)) == Of(s, l);
      assert l != k ==> Of(t, k) == Of(s, k);
      if f.reply.value.None? {
        RecoveredNothingOf(t, l, f, k);
      } else if l == k {
        RecoveredRunOf(t, l, f, f.reply.value.value);
      } else {
        RecoveredRunOther(t, l, f, f.reply.value.value, k);
      }
      hide RecoveredNothing, RecoveredRun, KeyResumed, Of, RunsOk, Injective;
    }
  }

  lemma EndInspectionOf(s: State, l: Key, k: Key)
    ensures Of(EndInspection(s, l), k) == if l == k then Of(s, k).(inspecting := None) else Of(s, k)
    ensures EndInspection(s, l).created == s.created && EndInspection(s, l).runIds == s.runIds
    ensures RunsOk(s) ==> RunsOk(EndInspection(s, l))
  {
  }

  lemma EndGuardOwn(s: State, run: RunId, guarded: bool, k: Key)
    requires Get(s.created, k) == Some(run)
    ensures Of(EndGuard(s, run, guarded), k) == Of(s, k).(recovering := Of(s, k).recovering && !guarded)
  {
  }

  lemma OkIsBound(s: State, k: Key)
    requires KeyOk(s, k)
    ensures BoundOk(Of(s, k), k) && BoundOk(Of(s, k).(inspecting := None), k) && Of(s, k).created == Get(s.created, k) && Of(s, k).run == Get(s.runIds, k)
    ensures k in s.inspecting ==> Get(s.created, k) == Some(s.inspecting[k].run)
    ensures k in s.runIds ==> Get(s.created, k) == Some(s.runIds[k])
    ensures Of(s, k).inspecting == Get(s.inspecting, k)
  {
  }

  lemma InspectResumedOf(s: State, l: Key, seen: Seen, k: Key)
    requires KeyOk(s, k) && KeyOk(s, l) && RunsOk(s) && Injective(s.created)
    ensures Of(InspectResumed(s, l, seen), k) == if l == k then KeyStep(Of(s, k), k, Inspected(seen)) else Of(s, k)
  {
    hide ReleaseRun, EndGuard, EndInspection, RunsOk, Of, Slice.Ok, BoundOk, KeyOk;
    OkIsBound(s, k);
    OkIsBound(s, l);
    if l in s.inspecting {
      var i := s.inspecting[l];
      var t := EndInspection(s, l);
      EndInspectionOf(s, l, k);
      ReleaseRunOf(t, i.run, k);
      var u := if seen.Terminal? then ReleaseRun(t, i.run) else t;
      if l == k { EndGuardOwn(u, i.run, i.guarded, k); } else { EndGuardOther(u, i.run, i.guarded, k); }
    }
  }

  lemma TerminalObservedOf(s: State, run: RunId, k: Key)
    requires KeyOk(s, k) && RunsOk(s)
    ensures Of(TerminalObserved(s, run), k) == if Get(s.created, k) == Some(run) then Over(Of(s, k)) else Of(s, k)
  {
    var t := Marked(s, run);
    assert Of(t, k) == Of(s, k);
    ReleaseRunOf(t, run, k);
    hide ReleaseRun;
  }

  /**
   * Under an injective backend the whole adapter, with its maps from keys and from runs, behaves for each key
   * as the one small machine of that key alone.
   */
  lemma KeysAreIndependent(s: State, e: Event, k: Key)
    requires Inv(s) && Injective(s.created) && !e.BackendAccepts?
    ensures Of(Step(s, e), k) == KeyStep(Of(s, k), k, Project(s, e, k))
  {
    assert KeyStep(Of(s, k), k, Nothing) == Of(s, k) && KeyStep(Of(s, k), k, Ended) == Over(Of(s, k));
    hide Of, KeyStep, RunsOk, Injective, LaunchAdmitted, LaunchReturned, LaunchThrew, RecoverStart, LookupAnswered,
         RecoverThrew, RecoverResumed, InspectResumed, TerminalObserved;
    assert KeyOk(s, k);
    match e
    case EvLaunchAdmitted(l) => LaunchAdmittedOf(s, l, k);
    case EvLaunchReturned(l) => assert KeyOk(s, l); HolderOk(s, l); LaunchReturnedOf(s, l, k);
    case EvLaunchThrew(l) => LaunchThrewOf(s, l, k);
    case EvRecoverStart(l, idTaken) => if l == k { OkIsBound(s, k); RecoverStartOwn(s, k, idTaken); } else { RecoverStartOther(s, l, idTaken, k); }
    case EvLookupAnswered(l) => LookupAnsweredOf(s, l, k);
    case EvRecoverThrew(l) => RecoverThrewOf(s, l, k);
    case EvRecoverResumed(l) => assert KeyOk(s, l); HolderOk(s, l); RecoverResumedOf(s, l, k);
    case EvInspectResumed(l, seen) => assert KeyOk(s, l); InspectResumedOf(s, l, seen, k);
    case EvTerminalObserved(run) => TerminalObservedOf(s, run, k);
  }

  lemma HolderOk(s: State, l: Key)
    requires forall k :: KeyOk(s, k)
    ensures l in s.created && s.created[l] in s.releases ==> KeyOk(s, s.releases[s.created[l]].key)
  {
  }

  lemma ReleaseRunRuns(s: State, run: RunId)
    requires RunsOk(s)
    ensures RunsOk(ReleaseRun(s, run))
  {
  }

  lemma LaunchReturnedRuns(s: State, l: Key)
    requires RunsOk(s) && KeyOk(s, l)
    ensures RunsOk(LaunchReturned(s, l))
  {
  }

  lemma RecoveredLaunchRuns(s: State, l: Key, permit: nat, run: RunId)
    requires RunsOk(s) && (l in s.runIds ==> s.runIds[l] == run)
    ensures RunsOk(RecoveredLaunch(s, l, permit, run))
  {
  }

  lemma RecoveredFreshRuns(s: State, l: Key, permit: nat, run: RunId)
    requires RunsOk(s) && (l in s.runIds ==> s.runIds[l] == run) && run in s.created.Values
    ensures RunsOk(RecoveredFresh(s, l, permit, run))
  {
  }

  lemma RecoveredNothingRuns(s: State, l: Key, f: Lookup)
    requires RunsOk(s)
    ensures RunsOk(RecoveredNothing(s, l, f))
  {
    var t := s.(live := DropOption(DropOption(s.live, l, f.unresolved), l, f.recovery));
    if f.retainedRun.Some? { ReleaseRunRuns(t, f.retainedRun.value); }
    hide ReleaseRun;
  }

  lemma RecoverResumedRuns(s: State, l: Key)
    requires RunsOk(s) && KeyOk(s, l)
    ensures RunsOk(RecoverResumed(s, l))
  {
    if l in s.lookups && s.lookups[l].reply.Some? {
      var f := s.lookups[l];
      var t := s.(lookups := s.lookups - {l});
      assert RunsOk(t);
      if f.reply.value.None? {
        RecoveredNothingRuns(t, l, f);
      } else {
        var run := f.reply.value.value;
        assert s.created[l] == run && run in s.created.Values;
        assert l in s.runIds ==> s.runIds[l] == run;
        RecoveredRunRuns(t, l, f, run);
      }
      hide RunsOk, RecoveredNothing, RecoveredRun, KeyOk;
    }
  }

  lemma RecoveredRunRuns(s: State, l: Key, f: Lookup, run: RunId)
    requires RunsOk(s) && (l in s.runIds ==> s.runIds[l] == run) && run in s.created.Values
    ensures RunsOk(RecoveredRun(s, l, f, run))
  {
    hide RunsOk, RecoveredLaunch, RecoveredFresh, RecoveredBound, EndGuard;
    if f.unresolved.Some? { RecoveredLaunchRuns(s, l, f.unresolved.value, run); }
    if f.recovery.Some? { RecoveredFreshRuns(s, l, f.recovery.value, run); }
    UnboundRuns(s, l, f.recovery, run);
  }

  lemma UnboundRuns(s: State, l: Key, recovery: Option<nat>, run: RunId)
    requires RunsOk(s)
    ensures RunsOk(RecoveredBound(s, l, recovery)) && RunsOk(EndGuard(s, run, true))
  {
  }

  lemma StepRuns(s: State, e: Event)
    requires Inv(s) && !e.BackendAccepts?
    ensures RunsOk(Step(s, e))
  {
    match e
    case EvLaunchReturned(l) => assert KeyOk(s, l); LaunchReturnedRuns(s, l);
    case EvRecoverResumed(l) => assert KeyOk(s, l); RecoverResumedRuns(s, l);
    case EvInspectResumed(l, seen) => InspectResumedRuns(s, l, seen);
    case EvTerminalObserved(run) => TerminalObservedRuns(s, run);
    case _ =>
    hide RecoverResumed, LaunchReturned, InspectResumed, TerminalObserved, KeyOk;
  }

  lemma InspectResumedRuns(s: State, l: Key, seen: Seen)
    requires RunsOk(s)
    ensures RunsOk(InspectResumed(s, l, seen))
  {
    if l in s.inspecting {
      var i := s.inspecting[l];
      var t := EndInspection(s, l);
      ReleaseRunRuns(t, i.run);
      hide ReleaseRun;
    }
  }

  lemma TerminalObservedRuns(s: State, run: RunId)
    requires RunsOk(s)
    ensures RunsOk(TerminalObserved(s, run))
  {
    var t := Marked(s, run);
    assert RunsOk(t);
    ReleaseRunRuns(t, run);
    hide ReleaseRun, RunsOk;
  }

  lemma AcceptInv(s: State, k: Key, run: RunId)
    requires Inv(s) && k !in s.created && Injective(s.created[k := run])
    ensures Inv(s.(created := s.created[k := run]))
  {
    var t := s.(created := s.created[k := run]);
    AcceptValues(s.created, k, run);
    forall l ensures KeyOk(t, l) {
      assert KeyOk(s, l);
      assert Of(t, l) == if l == k then Of(s, l).(created := Some(run), recovering := false) else Of(s, l);
    }
  }

  lemma AcceptValues(m: map<Key, RunId>, k: Key, run: RunId)
    requires k !in m && Injective(m[k := run])
    ensures m.Values <= m[k := run].Values && run !in m.Values
  {
    forall r | r in m.Values ensures r in m[k := run].Values && r != run {
      var l :| l in m && m[l] == r;
      assert m[k := run][l] == r && m[k := run][k] == run;
    }
  }

  lemma StepInv(s: State, e: Event)
    requires Inv(s) && Injective(Step(s, e).created)
    ensures Inv(Step(s, e))
  {
    if e.BackendAccepts? {
      if e.key !in s.created { AcceptInv(s, e.key, e.run); }
    } else {
      StepRuns(s, e);
      BackendUnchanged(s, e);
      forall k ensures KeyOk(Step(s, e), k) {
        assert KeyOk(s, k);
        KeysAreIndependent(s, e, k);
        KeyStepOk(Of(s, k), k, Project(s, e, k));
      }
    }
    hide Step, Of, RunsOk, KeyStep, Slice.Ok, Project, Injective;
  }

  lemma BackendUnchanged(s: State, e: Event)
    requires !e.BackendAccepts?
    ensures Step(s, e).created == s.created
  {
    hide RecoverResumed, LaunchReturned, InspectResumed, TerminalObserved;
  }

  // ---------------------------------------------------------------- what holds over every run

  /** The permit kept for key `k` in place `h`. */
  function Kept(s: State, k: Key, h: Holder): Option<nat> { Of(s, k).Kept(h) }

  /**
   * In every interleaving, given a backend that never gives one run to two keys, the invariant holds.
   */
  lemma {:induction false} RunInv(events: seq<Event>)
    requires Injective(Run(events).created)
    ensures Inv(Run(events))
  {
    if events != [] {
      var before := Run(events[..|events| - 1]);
      BackendGrows(before, events[|events| - 1]);
      RunInv(events[..|events| - 1]);
      hide Inv, Step;
      StepInv(before, events[|events| - 1]);
    }
  }

  lemma BackendGrows(s: State, e: Event)
    ensures forall k :: k in s.created ==> k in Step(s, e).created && Step(s, e).created[k] == s.created[k]
    ensures Injective(Step(s, e).created) ==> Injective(s.created)
  {
    if e.BackendAccepts? {
      assert forall k :: k in s.created ==> k in Step(s, e).created && Step(s, e).created[k] == s.created[k];
    } else {
      BackendUnchanged(s, e);
    }
    hide Step;
  }

  /**
   * No permit leaks: what the scheduler counts for a key is kept in exactly one place, from where a later
   * segment can give it back, and nothing is kept that is not counted.
   */
  lemma EveryPermitHasOneHolder(events: seq<Event>, k: Key)
    requires Injective(Run(events).created)
    ensures
      var s := Run(events);
      && (k in s.live ==> exists h :: Kept(s, k, h) == Some(s.live[k]))
      && (forall h :: Kept(s, k, h).Some? ==> Kept(s, k, h) == Get(s.live, k))
      && (forall h, g :: Kept(s, k, h).Some? && Kept(s, k, g).Some? ==> h == g)
  {
    RunInv(events);
    hide Slice.OneHolder, Slice.Kept, Slice.LookupOk, RunsOk, Step, Injective;
    var s := Run(events);
    assert KeyOk(s, k);
    assert Of(s, k).live == Get(s.live, k);
    OnePlace(Of(s, k));
    assert k in s.live ==> exists h :: Kept(s, k, h) == Some(s.live[k]) by {
      if k in s.live {
        var h :| Of(s, k).Kept(h) == Of(s, k).live;
        assert Kept(s, k, h) == Some(s.live[k]);
      }
    }
  }

  lemma OnePlace(x: Slice)
    requires x.OneHolder()
    ensures x.live.Some? ==> exists h :: x.Kept(h) == x.live
    ensures forall h :: x.Kept(h).Some? ==> x.Kept(h) == x.live
    ensures forall h, g :: x.Kept(h).Some? && x.Kept(g).Some? ==> h == g
  {
    assert x.live.Some? ==> x.Kept(Launch) == x.live || x.Kept(Bound) == x.live || x.Kept(UnresolvedLaunch) == x.live
                            || x.Kept(UnresolvedRecovery) == x.live || x.Kept(Fresh) == x.live;
    forall h ensures x.Matches(h) {
      match h case Launch => case Bound => case UnresolvedLaunch => case UnresolvedRecovery => case Fresh =>
    }
    forall h, g | x.Kept(h).Some? && x.Kept(g).Some? ensures h == g {
      assert One(x.Kept(h)) == 1 && One(x.Kept(g)) == 1;
    }
  }

  /** The evidence in an event that the run of key `k` is over, or was never accepted. */
  ghost predicate Ends(s: State, e: Event, k: Key) {
    match e
    case EvTerminalObserved(run) => Get(s.created, k) == Some(run)
    case EvInspectResumed(l, seen) => l == k && seen.Terminal?
    case EvRecoverResumed(l) => l == k && k in s.lookups && s.lookups[k].reply == Some(None) && k !in s.runIds
    case _ => false
  }

  /** A permit stays counted, and a bound run stays bound, until such evidence about the same key arrives. */
  lemma OnlyEvidenceEndsAPermit(s: State, e: Event, k: Key)
    requires Inv(s) && Injective(Step(s, e).created) && !Ends(s, e, k)
    ensures Get(s.live, k).Some? ==> Get(Step(s, e).live, k) == Get(s.live, k)
    ensures Get(s.runIds, k).Some? ==> Get(Step(s, e).runIds, k) == Get(s.runIds, k)
  {
    BackendGrows(s, e);
    if !e.BackendAccepts? {
      KeysAreIndependent(s, e, k);
      assert KeyOk(s, k);
      KeyStepKeeps(Of(s, k), k, Project(s, e, k));
      hide Step, KeyStep, Slice.Ok, RunsOk, Injective;
    }
  }

  lemma KeyStepKeeps(x: Slice, k: Key, e: KeyEvent)
    requires x.Ok(k)
    requires e != Ended && e != Inspected(Terminal)
    requires e == Resumed && x.lookup.Some? && x.lookup.value.reply == Some(None) ==> x.run.Some?
    ensures x.live.Some? ==> KeyStep(x, k, e).live == x.live
    ensures x.run.Some? ==> KeyStep(x, k, e).run == x.run
  {
  }

  /** A bound run is counted, with the same permit, until it is observed terminal. */
  lemma {:induction false} BoundRunStaysCounted(events: seq<Event>, n: nat, k: Key)
    requires n <= |events| && Injective(Run(events).created)
    requires k in Run(events[..n]).runIds
    requires forall i :: n <= i < |events| ==> !Ends(Run(events[..i]), events[i], k)
    ensures
      var s, t := Run(events[..n]), Run(events);
      k in s.live && Get(t.live, k) == Get(s.live, k) && Get(t.runIds, k) == Get(s.runIds, k)
  {
    if n == |events| {
      assert events[..n] == events;
      RunInv(events);
      assert KeyOk(Run(events), k);
    } else {
      var init, last := events[..|events| - 1], events[|events| - 1];
      BackendGrows(Run(init), last);
      assert init[..n] == events[..n];
      forall i | n <= i < |init| ensures !Ends(Run(init[..i]), init[i], k) {
        assert init[..i] == events[..i];
      }
      BoundRunStaysCounted(init, n, k);
      RunInv(init);
      hide Inv, Ends, Step;
      OnlyEvidenceEndsAPermit(Run(init), last, k);
    }
  }

  /** The test of `terminalRuns` in `recover` never succeeds, so the early release there is dead code. */
  lemma RecoveredRunNotYetTerminal(s: State, k: Key)
    requires Inv(s) && k in s.lookups && s.lookups[k].reply.Some? && s.lookups[k].reply.value.Some?
    ensures s.lookups[k].reply.value.value !in s.terminalRuns
  {
    assert KeyOk(s, k);
  }

  // ---------------------------------------------------------------- without an injective backend

  /** The permit of the key is counted for ever: no place keeps it, so no later segment can give it back. */
  ghost predicate Lost(s: State, k: Key) {
    k in s.live && forall h :: Kept(s, k, h).None?
  }

  /** The run is held for another key. */
  predicate Contended(s: State, run: RunId, k: Key) { run in s.releases && s.releases[run].key != k }

  /**
   * `recover` forgets the permit of an unresolved launch before it notices that the run it found belongs to
   * another key.
   */
  predicate Loses(s: State, e: Event, k: Key) {
    && e == EvRecoverResumed(k) && k in s.lookups && s.lookups[k].unresolved.Some?
    && s.lookups[k].reply.Some? && s.lookups[k].reply.value.Some?
    && Contended(s, s.lookups[k].reply.value.value, k)
  }

  predicate KeySound(s: State, k: Key) { Of(s, k).Sound(k) }

  /** What every run keeps, whatever the backend does. */
  ghost predicate SharedInv(s: State) {
    (forall k :: KeySound(s, k)) && RunsHeld(s)
  }

  lemma LostIsAstray(s: State, k: Key)
    ensures Lost(s, k) <==> Of(s, k).Astray()
  {
    var x := Of(s, k);
    if x.Astray() {
      forall h ensures Kept(s, k, h).None? {
        match h case Launch => case Bound => case UnresolvedLaunch => case UnresolvedRecovery => case Fresh =>
      }
    }
    if Lost(s, k) {
      assert Kept(s, k, Launch).None? && Kept(s, k, Bound).None? && Kept(s, k, UnresolvedLaunch).None?
             && Kept(s, k, UnresolvedRecovery).None? && Kept(s, k, Fresh).None?;
    }
  }

  /** The two slices keep permits alike and are sound alike. */
  ghost predicate Settled(x: Slice, y: Slice, k: Key) {
    y.Sound(k) && (y.Astray() <==> x.Astray())
  }

  /** These events work on a key as in its own small machine, also when it shares its run. */
  lemma KeyStepSettled(x: Slice, k: Key, e: KeyEvent)
    requires x.Sound(k) && !e.Returned? && !e.Resumed?
    ensures Settled(x, KeyStep(x, k, e), k)
  {
  }

  /** The same but for the guard of a recovery, which may be that of another key. */
  ghost predicate Aside(x: Slice, y: Slice) { y == x.(recovering := y.recovering) }

  lemma AsideSelf(x: Slice)
    ensures Aside(x, x)
  {
  }

  lemma RecoveringIsNoMatter(x: Slice, y: Slice, k: Key)
    requires x.Sound(k) && Aside(x, y)
    ensures Settled(x, y, k)
  {
  }

  lemma SoundIsBound(s: State, k: Key)
    requires KeySound(s, k)
    ensures BoundOk(Of(s, k), k) && BoundOk(Of(s, k).(inspecting := None), k) && Of(s, k).run == Get(s.runIds, k)
    ensures Of(s, k).run.Some? <==> Of(s, k).held.Some?
    ensures k in s.inspecting ==> Get(s.created, k) == Some(s.inspecting[k].run)
    ensures k in s.runIds ==> Get(s.created, k) == Some(s.runIds[k]) && s.runIds[k] in s.releases
    ensures k in s.runIds ==> s.releases[s.runIds[k]].key == k
    ensures Of(s, k).inspecting == Get(s.inspecting, k)
  {
  }

  // ---- a launch that returns

  lemma ReturnedOwn(s: State, k: Key)
    requires KeySound(s, k) && RunsHeld(s)
    ensures Settled(Of(s, k), Of(LaunchReturned(s, k), k), k)
  {
    var x, y := Of(s, k), Of(LaunchReturned(s, k), k);
    if k in s.launching && k in s.created {
      if Contended(s, s.created[k], k) {
        assert y == x.(launching := None, unresolvedLaunch := x.launching);
      } else {
        assert s.created[k] !in s.releases;
        assert y == x.(launching := None, run := x.created, held := Some(Held(k, x.launching.value)));
      }
    }
  }

  lemma ReturnedOther(s: State, l: Key, k: Key)
    requires KeySound(s, k) && l != k
    ensures Of(LaunchReturned(s, l), k) == Of(s, k)
  {
    SoundIsBound(s, k);
  }

  lemma ReturnedRunsHeld(s: State, l: Key)
    requires KeySound(s, l) && RunsHeld(s)
    ensures RunsHeld(LaunchReturned(s, l))
  {
    SoundIsBound(s, l);
  }

  // ---- a recovery that resumes, on its own key

  lemma ResumedNothingOwn(x: Slice, f: Lookup, k: Key)
    requires x.lookup.None? && x.(lookup := Some(f)).Sound(k) && f.reply == Some(None)
    ensures Settled(x.(lookup := Some(f)), x.(live := None, unresolvedLaunch := None, unresolvedRecovery := None), k)
  {
  }

  lemma ResumedLaunchOwn(s: State, k: Key, f: Lookup, run: RunId)
    requires k !in s.lookups && Of(s, k).(lookup := Some(f)).Sound(k) && f.reply == Some(Some(run)) && f.unresolved.Some?
    requires RunsHeld(s)
    ensures
      var y := Of(RecoveredLaunch(s, k, f.unresolved.value, run), k);
      y.Sound(k) && !Of(s, k).(lookup := Some(f)).Astray() && (y.Astray() <==> Contended(s, run, k))
  {
    var x, y := Of(s, k), Of(RecoveredLaunch(s, k, f.unresolved.value, run), k);
    if Contended(s, run, k) {
      assert y == x.(unresolvedLaunch := None);
    } else {
      assert run !in s.releases;
      assert y == x.(unresolvedLaunch := None, run := Some(run), held := Some(Held(k, f.unresolved.value)),
                     inspecting := Some(Inspection(run, false)));
    }
  }

  lemma ResumedFreshOwn(s: State, k: Key, f: Lookup, run: RunId)
    requires k !in s.lookups && Of(s, k).(lookup := Some(f)).Sound(k) && f.reply == Some(Some(run))
    requires f.unresolved.None? && f.recovery.Some? && run !in s.releases
    ensures Settled(Of(s, k).(lookup := Some(f)), Of(RecoveredFresh(s, k, f.recovery.value, run), k), k)
  {
    var x, y := Of(s, k), Of(RecoveredFresh(s, k, f.recovery.value, run), k);
    if run in s.terminalRuns {
      assert y == x.(live := None, unresolvedRecovery := None, inspecting := Some(Inspection(run, true)), recovering := true);
    } else {
      assert y == x.(unresolvedRecovery := None, run := Some(run), held := Some(Held(k, f.recovery.value)),
                     inspecting := Some(Inspection(run, true)), recovering := true);
    }
  }

  lemma ResumedBoundOwn(s: State, k: Key, f: Lookup, run: RunId)
    requires k !in s.lookups && Of(s, k).(lookup := Some(f)).Sound(k) && f.reply == Some(Some(run)) && f.unresolved.None?
    ensures Settled(Of(s, k).(lookup := Some(f)), Of(RecoveredBound(s, k, f.recovery), k), k)
  {
    var x, y := Of(s, k), Of(RecoveredBound(s, k, f.recovery), k);
    assert y == x.(live := if f.recovery.Some? then None else x.live, unresolvedRecovery := None);
  }

  lemma RetainedOwn(x: Slice, f: Lookup, k: Key)
    requires x.lookup.None? && x.(lookup := Some(f)).Sound(k) && f.unresolved.None? && f.recovery.None?
    ensures f.retainedPermit.Some? && f.retainedRun.Some? && Settled(x.(lookup := Some(f)), x, k)
    ensures f.reply.Some? && f.reply.value.Some? ==> f.reply.value == f.retainedRun
  {
  }

  lemma ResumedRunOwn(s: State, k: Key, f: Lookup, run: RunId)
    requires k !in s.lookups && Of(s, k).(lookup := Some(f)).Sound(k) && f.reply == Some(Some(run)) && RunsHeld(s)
    ensures
      var x, y := Of(s, k).(lookup := Some(f)), Of(RecoveredRun(s, k, f, run), k);
      y.Sound(k) && (y.Astray() <==> x.Astray() || (f.unresolved.Some? && Contended(s, run, k)))
  {
    assert Of(s, k).lookup.None?;
    hide Of, RecoveredLaunch, RecoveredFresh, RecoveredBound, EndGuard, RunsHeld, Contended, Slice.Sound, Slice.Astray;
    if f.unresolved.Some? { ResumedLaunchOwn(s, k, f, run); }
    else if run in s.releases { ResumedBoundOwn(s, k, f, run); }
    else if f.recovery.Some? { ResumedFreshOwn(s, k, f, run); }
    else { RetainedOwn(Of(s, k), f, k); }
    if f.recovery.Some? && f.unresolved.None? && run !in s.releases { FreshIsNotRetained(Of(s, k), f, k); }
  }

  lemma FreshIsNotRetained(x: Slice, f: Lookup, k: Key)
    requires x.(lookup := Some(f)).Sound(k) && f.recovery.Some?
    ensures f.retainedPermit.None?
  {
  }

  lemma ResumedOwn(s: State, k: Key)
    requires KeySound(s, k) && RunsHeld(s)
    ensures
      var x, y := Of(s, k), Of(RecoverResumed(s, k), k);
      y.Sound(k) && (y.Astray() <==> x.Astray() || Loses(s, EvRecoverResumed(k), k))
  {
    hide RecoveredNothing, RecoveredRun, Of, RunsHeld, Slice.Sound, Slice.Astray, Contended;
    if k in s.lookups && s.lookups[k].reply.Some? {
      var f := s.lookups[k];
      var t := s.(lookups := s.lookups - {k});
      LookupTaken(s, k);
      if f.reply.value.None? {
        NothingOf(t, k, f, k);
        ResumedNothingOwn(Of(t, k), f, k);
      } else {
        ResumedRunOwn(t, k, f, f.reply.value.value);
      }
    }
  }

  /** The state in which a resumed recovery goes on. */
  lemma LookupTaken(s: State, k: Key)
    requires k in s.lookups && RunsHeld(s)
    ensures
      var t := s.(lookups := s.lookups - {k});
      && Of(t, k).(lookup := Some(s.lookups[k])) == Of(s, k) && Of(t, k).lookup.None? && RunsHeld(t)
      && forall run :: Contended(t, run, k) <==> Contended(s, run, k)
  {
  }

  lemma NothingOf(s: State, l: Key, f: Lookup, k: Key)
    requires l !in s.lookups && Of(s, l).(lookup := Some(f)).Sound(l) && f.reply == Some(None)
    ensures Of(RecoveredNothing(s, l, f), k)
            == if l == k then Of(s, k).(live := None, unresolvedLaunch := None, unresolvedRecovery := None) else Of(s, k)
    ensures RecoveredNothing(s, l, f).releases == s.releases && RecoveredNothing(s, l, f).runIds == s.runIds
  {
  }

  // ---- a recovery that resumes, on the other keys

  lemma ResumedFreshOther(s: State, l: Key, permit: nat, run: RunId, k: Key)
    requires k != l && run !in s.releases && (k in s.runIds ==> s.runIds[k] in s.releases)
    ensures Aside(Of(s, k), Of(RecoveredFresh(s, l, permit, run), k))
  {
  }

  lemma EndGuardAside(s: State, run: RunId, k: Key)
    ensures Aside(Of(s, k), Of(EndGuard(s, run, true), k))
  {
  }

  lemma ResumedRunOther(s: State, l: Key, f: Lookup, run: RunId, k: Key)
    requires KeySound(s, k) && l != k
    ensures Aside(Of(s, k), Of(RecoveredRun(s, l, f, run), k))
  {
    SoundIsBound(s, k);
    AsideSelf(Of(s, k));
    hide Aside, Of, RecoveredLaunch, RecoveredFresh, RecoveredBound, EndGuard, KeySound;
    if f.unresolved.Some? { RecoveredLaunchOther(s, l, f.unresolved.value, run, k); }
    else if run in s.releases { RecoveredBoundOther(s, l, f.recovery, k); }
    else if f.recovery.Some? { ResumedFreshOther(s, l, f.recovery.value, run, k); }
    else { EndGuardAside(s, run, k); }
  }

  lemma ResumedOther(s: State, l: Key, k: Key)
    requires KeySound(s, k) && KeySound(s, l) && l != k
    ensures Aside(Of(s, k), Of(RecoverResumed(s, l), k))
  {
    if l in s.lookups && s.lookups[l].reply.Some? {
      var f := s.lookups[l];
      var t := s.(lookups := s.lookups - {l});
      assert Of(t, l).(lookup := Some(f)) == Of(s, l);
      assert Of(t, k) == Of(s, k);
      if f.reply.value.None? { NothingOf(t, l, f, k); } else { ResumedRunOther(t, l, f, f.reply.value.value, k); }
      hide RecoveredNothing, RecoveredRun, Of, Slice.Sound;
    }
  }

  lemma ResumedLaunchRunsHeld(s: State, l: Key, permit: nat, run: RunId)
    requires RunsHeld(s) && (l in s.runIds ==> s.runIds[l] == run)
    ensures RunsHeld(RecoveredLaunch(s, l, permit, run)) && RunsHeld(RecoveredFresh(s, l, permit, run))
  {
  }

  lemma ResumedBoundRunsHeld(s: State, l: Key, recovery: Option<nat>, run: RunId)
    requires RunsHeld(s)
    ensures RunsHeld(RecoveredBound(s, l, recovery)) && RunsHeld(EndGuard(s, run, true))
  {
  }

  lemma ResumedRunRunsHeld(s: State, l: Key, f: Lookup, run: RunId)
    requires RunsHeld(s) && (l in s.runIds ==> s.runIds[l] == run)
    ensures RunsHeld(RecoveredRun(s, l, f, run))
  {
    hide RunsHeld, RecoveredLaunch, RecoveredFresh, RecoveredBound, EndGuard;
    if f.unresolved.Some? { ResumedLaunchRunsHeld(s, l, f.unresolved.value, run); }
    if f.recovery.Some? { ResumedLaunchRunsHeld(s, l, f.recovery.value, run); }
    ResumedBoundRunsHeld(s, l, f.recovery, run);
  }

  lemma ResumedRunsHeld(s: State, l: Key)
    requires KeySound(s, l) && RunsHeld(s)
    ensures RunsHeld(RecoverResumed(s, l))
  {
    if l in s.lookups && s.lookups[l].reply.Some? {
      var f := s.lookups[l];
      var t := s.(lookups := s.lookups - {l});
      assert Of(t, l).(lookup := Some(f)) == Of(s, l);
      SoundIsBound(s, l);
      if f.reply.value.None? {
        NothingOf(t, l, f, l);
      } else {
        assert Get(s.created, l) == f.reply.value;
        ResumedRunRunsHeld(t, l, f, f.reply.value.value);
      }
      hide RecoveredNothing, RecoveredRun, Of;
    }
  }

  // ---- what ends a run

  lemma EndGuardSettled(x: Slice, s: State, run: RunId, guarded: bool, k: Key)
    requires Settled(x, Of(s, k), k)
    ensures Settled(x, Of(EndGuard(s, run, guarded), k), k)
  {
    RecoveringIsNoMatter(Of(s, k), Of(EndGuard(s, run, guarded), k), k);
  }

  lemma OverSettled(x: Slice, k: Key)
    requires x.Sound(k)
    ensures Settled(x, Over(x), k) && Settled(x, x, k)
    ensures Settled(x, Over(x.(inspecting := None)), k) && Settled(x, x.(inspecting := None), k)
  {
  }

  lemma InspectedSettled(s: State, l: Key, seen: Seen, k: Key)
    requires KeySound(s, k) && RunsHeld(s)
    ensures Settled(Of(s, k), Of(InspectResumed(s, l, seen), k), k)
  {
    hide ReleaseRun, EndGuard, EndInspection, RunsHeld, RunsOk, Of, Slice.Sound, Slice.Astray, BoundOk, Settled;
    SoundIsBound(s, k);
    OverSettled(Of(s, k), k) by { assert KeySound(s, k); }
    if l in s.inspecting {
      var i := s.inspecting[l];
      var t := EndInspection(s, l);
      EndInspectionOf(s, l, k);
      InspectionKeepsHeld(s, l);
      ReleaseRunOf(t, i.run, k);
      var u := if seen.Terminal? then ReleaseRun(t, i.run) else t;
      EndGuardSettled(Of(s, k), u, i.run, i.guarded, k);
    }
  }

  lemma InspectionKeepsHeld(s: State, l: Key)
    requires RunsHeld(s)
    ensures RunsHeld(EndInspection(s, l))
  {
  }

  lemma ObservedSettled(s: State, run: RunId, k: Key)
    requires KeySound(s, k) && RunsHeld(s)
    ensures Settled(Of(s, k), Of(TerminalObserved(s, run), k), k)
  {
    var t := Marked(s, run);
    assert Of(t, k) == Of(s, k) && RunsHeld(t);
    SoundIsBound(s, k);
    OverSettled(Of(s, k), k);
    ReleaseRunOf(t, run, k);
    hide ReleaseRun, Of, Slice.Sound, Slice.Astray;
  }

  lemma ReleaseRunHeld(s: State, run: RunId)
    requires RunsHeld(s)
    ensures RunsHeld(ReleaseRun(s, run))
  {
  }

  lemma EndingRunsHeld(s: State, l: Key, seen: Seen, run: RunId)
    requires RunsHeld(s)
    ensures RunsHeld(InspectResumed(s, l, seen)) && RunsHeld(TerminalObserved(s, run))
  {
    var t := Marked(s, run);
    assert RunsHeld(t);
    ReleaseRunHeld(t, run);
    if l in s.inspecting {
      InspectionKeepsHeld(s, l);
      ReleaseRunHeld(EndInspection(s, l), s.inspecting[l].run);
      GuardKeepsHeld(EndInspection(s, l), s.inspecting[l]);
      GuardKeepsHeld(ReleaseRun(EndInspection(s, l), s.inspecting[l].run), s.inspecting[l]);
    }
    hide ReleaseRun, EndInspection, EndGuard, RunsHeld;
  }

  lemma GuardKeepsHeld(s: State, i: Inspection)
    requires RunsHeld(s)
    ensures RunsHeld(EndGuard(s, i.run, i.guarded))
  {
  }

  lemma AcceptSettled(s: State, l: Key, run: RunId, k: Key)
    requires KeySound(s, k)
    ensures Settled(Of(s, k), Of(Step(s, BackendAccepts(l, run)), k), k)
  {
    var x, y := Of(s, k), Of(Step(s, BackendAccepts(l, run)), k);
    if l == k && k !in s.created {
      assert y == x.(created := Some(run), recovering := y.recovering);
    } else {
      assert y == x;
    }
  }

  lemma RunsStayHeld(s: State, e: Event)
    requires SharedInv(s)
    ensures RunsHeld(Step(s, e))
  {
    hide RecoverResumed, LaunchReturned, InspectResumed, TerminalObserved, KeySound;
    match e
    case EvLaunchReturned(l) => assert KeySound(s, l); ReturnedRunsHeld(s, l);
    case EvRecoverResumed(l) => assert KeySound(s, l); ResumedRunsHeld(s, l);
    case EvInspectResumed(l, seen) => EndingRunsHeld(s, l, seen, 0);
    case EvTerminalObserved(run) => EndingRunsHeld(s, 0, Terminal, run);
    case _ =>
  }

  /** Every event leaves every key sound, and loses its permit in that one case only. */
  lemma KeyAfterStep(s: State, e: Event, k: Key)
    requires SharedInv(s)
    ensures KeySound(Step(s, e), k)
    ensures Of(Step(s, e), k).Astray() <==> Of(s, k).Astray() || Loses(s, e, k)
  {
    assert KeySound(s, k);
    var x := Of(s, k);
    RecoveringIsNoMatter(x, x, k);
    hide Of, KeyStep, RunsHeld, Slice.Sound, Slice.Astray, LaunchAdmitted, LaunchReturned, LaunchThrew, RecoverStart,
         LookupAnswered, RecoverThrew, RecoverResumed, InspectResumed, TerminalObserved;
    match e
    case BackendAccepts(l, run) => AcceptSettled(s, l, run, k);
    case EvLaunchAdmitted(l) => LaunchAdmittedOf(s, l, k); KeyStepSettled(x, k, Admitted(s.nextPermit));
    case EvLaunchReturned(l) => if l == k { ReturnedOwn(s, k); } else { ReturnedOther(s, l, k); }
    case EvLaunchThrew(l) => LaunchThrewOf(s, l, k); KeyStepSettled(x, k, Threw);
    case EvRecoverStart(l, idTaken) =>
      if l == k { SoundIsBound(s, k); RecoverStartOwn(s, k, idTaken); KeyStepSettled(x, k, Start(s.nextPermit, idTaken)); }
      else { RecoverStartOther(s, l, idTaken, k); }
    case EvLookupAnswered(l) => LookupAnsweredOf(s, l, k); KeyStepSettled(x, k, Answered);
    case EvRecoverThrew(l) => RecoverThrewOf(s, l, k); KeyStepSettled(x, k, LookupThrew);
    case EvRecoverResumed(l) =>
      if l == k { ResumedOwn(s, k); }
      else {
        assert KeySound(s, l);
        ResumedOther(s, l, k);
        RecoveringIsNoMatter(x, Of(RecoverResumed(s, l), k), k);
      }
    case EvInspectResumed(l, seen) => InspectedSettled(s, l, seen, k);
    case EvTerminalObserved(run) => ObservedSettled(s, run, k);
  }

  /** With no assumption on the backend every interleaving keeps the keys sound. */
  lemma {:induction false} SharedRunInv(events: seq<Event>)
    ensures SharedInv(Run(events))
  {
    if events != [] {
      var before, e := Run(events[..|events| - 1]), events[|events| - 1];
      SharedRunInv(events[..|events| - 1]);
      RunsStayHeld(before, e);
      forall k ensures KeySound(Run(events), k) { KeyAfterStep(before, e, k); }
      hide Step, RunsHeld, KeySound;
    }
  }

  /**
   * A step loses the permit of a key exactly when it resumes the recovery of an unresolved launch of the key
   * and the run found is held for another one; and a permit that is lost stays lost.
   */
  lemma PermitLostExactlyOnConflict(s: State, e: Event, k: Key)
    requires SharedInv(s)
    ensures Lost(Step(s, e), k) <==> Lost(s, k) || Loses(s, e, k)
  {
    hide SharedInv, Lost, Loses, Step;
    LostIsAstray(s, k);
    LostIsAstray(Step(s, e), k);
    KeyAfterStep(s, e, k);
  }

  /** At some point of the history the permit of the key was lost. */
  ghost predicate EverLoses(events: seq<Event>, k: Key) {
    exists i :: 0 <= i < |events| && Loses(Run(events[..i]), events[i], k)
  }

  lemma LastLoss(events: seq<Event>, e: Event, k: Key)
    ensures EverLoses(events + [e], k) <==> EverLoses(events, k) || Loses(Run(events), e, k)
  {
    hide Loses, Run;
    var all := events + [e];
    assert all[..|events|] == events && all[|events|] == e;
    assert forall i :: 0 <= i < |events| ==> all[..i] == events[..i] && all[i] == events[i];
    if EverLoses(events, k) {
      var i :| 0 <= i < |events| && Loses(Run(events[..i]), events[i], k);
      assert Loses(Run(all[..i]), all[i], k);
    }
    if EverLoses(all, k) {
      var i :| 0 <= i < |all| && Loses(Run(all[..i]), all[i], k);
      assert i < |events| ==> Loses(Run(events[..i]), events[i], k);
    }
  }

  /** Over a whole history the permit of a key is lost exactly when that happened. */
  lemma {:induction false} LostPermitsExactly(events: seq<Event>, k: Key)
    ensures Lost(Run(events), k) <==> EverLoses(events, k)
  {
    if events == [] {
      LostIsAstray(Init, k);
    } else {
      hide Lost, Loses, EverLoses, Step, SharedInv;
      var before, e := events[..|events| - 1], events[|events| - 1];
      LostPermitsExactly(before, k);
      SharedRunInv(before);
      PermitLostExactlyOnConflict(Run(before), e, k);
      LastLoss(before, e, k);
      assert before + [e] == events;
    }
  }

  lemma Runs(events: seq<Event>, e: Event, s: State, t: State)
    requires Run(events) == s && Step(s, e) == t
    ensures Run(events + [e]) == t
  {
    assert (events + [e])[..|events|] == events;
  }

  const TwoKeysOneRun := Init.(created := map[1 := 7, 2 := 7])
  const FirstBound := TwoKeysOneRun.(live := map[1 := 0], nextPermit := 1, releases := map[7 := Held(1, 0)], runIds := map[1 := 7])
  const SecondThrew := FirstBound.(live := map[1 := 0, 2 := 1], nextPermit := 2, unresolvedLaunches := map[2 := 1])

  lemma ReachFirstBound() returns (events: seq<Event>)
    ensures Run(events) == FirstBound
  {
    var s := Init.(created := map[1 := 7]);
    Runs([], BackendAccepts(1, 7), Init, s);
    Runs([BackendAccepts(1, 7)], BackendAccepts(2, 7), s, TwoKeysOneRun);
    events := [BackendAccepts(1, 7)] + [BackendAccepts(2, 7)];
    s := TwoKeysOneRun.(live := map[1 := 0], nextPermit := 1, launching := map[1 := 0]);
    Runs(events, EvLaunchAdmitted(1), TwoKeysOneRun, s);
    events := events + [EvLaunchAdmitted(1)];
    Runs(events, EvLaunchReturned(1), s, FirstBound);
    events := events + [EvLaunchReturned(1)];
  }

  lemma ReachSecondThrew() returns (events: seq<Event>)
    ensures Run(events) == SecondThrew
  {
    events := ReachFirstBound();
    var s := FirstBound.(live := map[1 := 0, 2 := 1], nextPermit := 2, launching := map[2 := 1]);
    Runs(events, EvLaunchAdmitted(2), FirstBound, s);
    events := events + [EvLaunchAdmitted(2)];
    Runs(events, EvLaunchThrew(2), s, SecondThrew);
    events := events + [EvLaunchThrew(2)];
  }

  const SecondLooksUp := SecondThrew.(lookups := map[2 := Lookup(Some(1), None, None, None, Some(Some(7)))])
  const PermitLost := SecondThrew.(unresolvedLaunches := map[])

  lemma ReachSecondLooksUp() returns (events: seq<Event>)
    ensures Run(events) == SecondLooksUp
  {
    events := ReachSecondThrew();
    var s := SecondThrew.(lookups := map[2 := Lookup(Some(1), None, None, None, None)]);
    Runs(events, EvRecoverStart(2, false), SecondThrew, s);
    events := events + [EvRecoverStart(2, false)];
    Runs(events, EvLookupAnswered(2), s, SecondLooksUp);
    events := events + [EvLookupAnswered(2)];
  }

  /** The conflict is reachable when the backend gives run 7 to the keys 1 and 2. */
  lemma ConflictIsReachable()
    ensures exists events :: 2 in Run(events).live && forall h :: Kept(Run(events), 2, h).None?
  {
    var events := ReachSecondLooksUp();
    assert RecoverResumed(SecondLooksUp, 2) == PermitLost;
    Runs(events, EvRecoverResumed(2), SecondLooksUp, PermitLost);
    assert Of(PermitLost, 2) == Slice(Some(1), None, None, None, None, None, None, None, Some(7), false);
    hide Run, RecoverResumed, Of;
    forall h ensures Kept(PermitLost, 2, h).None? {
      match h case Launch => case Bound => case UnresolvedLaunch => case UnresolvedRecovery => case Fresh =>
    }
  }

  // ---------------------------------------------------------------- what each segment does

  /** The run is bound to the key and its permit is the one that is counted. */
  ghost predicate IsBound(s: State, k: Key, run: RunId, permit: nat) {
    && k in s.runIds && s.runIds[k] == run && run in s.releases && s.releases[run] == Held(k, permit)
    && k in s.live && s.live[k] == permit
  }

  /** The backend keeps the first run that it accepted for a key. */
  lemma AcceptanceMeans(s: State, k: Key, run: RunId)
    ensures
      var t := Step(s, BackendAccepts(k, run));
      if k in s.created then t == s else t == s.(created := t.created) && t.created == s.created[k := run]
  {
  }

  /** A launch that is admitted counts its own permit, and no second one is admitted meanwhile. */
  lemma AdmissionMeans(s: State, k: Key)
    ensures
      var t := Step(s, EvLaunchAdmitted(k));
      if k in s.live then t == s
      else
        && t == s.(live := t.live, launching := t.launching, nextPermit := t.nextPermit) && t.nextPermit > s.nextPermit
        && t.live == s.live[k := s.nextPermit] && t.launching == s.launching[k := s.nextPermit]
  {
  }

  /** When the backend answers, the run is bound; if it is held for another key, or the call throws, the permit is kept. */
  lemma LaunchMeans(s: State, k: Key)
    requires SharedInv(s) && k in s.launching
    ensures
      var t := Step(s, EvLaunchReturned(k));
      if k !in s.created then t == s
      else
        && k !in t.launching && t.live == s.live
        && (s.created[k] !in s.releases ==> IsBound(t, k, s.created[k], s.launching[k]))
        && (s.created[k] in s.releases ==>
              && t.releases == s.releases && t.runIds == s.runIds
              && k in t.unresolvedLaunches && t.unresolvedLaunches[k] == s.launching[k])
  {
    assert KeySound(s, k);
    LaunchingIsCounted(s, k);
    hide KeySound, RunsHeld;
  }

  lemma LaunchFailureMeans(s: State, k: Key)
    requires k in s.launching
    ensures
      var t := Step(s, EvLaunchThrew(k));
      && k !in t.launching && t.live == s.live && t.releases == s.releases && t.runIds == s.runIds
      && k in t.unresolvedLaunches && t.unresolvedLaunches[k] == s.launching[k]
  {
  }

  lemma LaunchingIsCounted(s: State, k: Key)
    requires KeySound(s, k) && k in s.launching && RunsHeld(s)
    ensures k in s.live && s.live[k] == s.launching[k] && k !in s.runIds
    ensures forall r :: r in s.releases ==> s.releases[r].key != k
  {
    assert Of(s, k).Kept(Launch).Some? && Of(s, k).Matches(Launch);
    assert Of(s, k).Kept(Bound).None?;
  }

  /** Something of the key is kept already, so a recovery needs no permit of its own. */
  predicate KeepsPermit(s: State, k: Key) {
    k in s.unresolvedLaunches || k in s.unresolvedRecoveries || (k in s.runIds && s.runIds[k] in s.releases)
  }

  /** A recovery that finds nothing kept reserves a permit, or fails when the id is in use; one at a time per key. */
  lemma RecoveryStartMeans(s: State, k: Key, idTaken: bool)
    ensures
      var t := Step(s, EvRecoverStart(k, idTaken));
      if k in s.lookups || k in s.inspecting || (!KeepsPermit(s, k) && (idTaken || k in s.live)) then t == s
      else
        && k in t.lookups && t.lookups[k].reply.None? && t == s.(lookups := t.lookups, live := t.live, nextPermit := t.nextPermit)
        && (KeepsPermit(s, k) ==>
              && t.live == s.live
              && t.lookups[k].unresolved == Get(s.unresolvedLaunches, k) && t.lookups[k].recovery == Get(s.unresolvedRecoveries, k))
        && (!KeepsPermit(s, k) ==>
              t.live == s.live[k := s.nextPermit] && t.lookups[k].recovery == Some(s.nextPermit) && t.lookups[k].unresolved.None?)
  {
  }

  /** The lookup answers what the backend had accepted. */
  lemma LookupMeans(s: State, k: Key)
    requires k in s.lookups
    ensures
      var t := Step(s, EvLookupAnswered(k));
      && k in t.lookups && t.lookups[k].reply.Some? && t == s.(lookups := t.lookups)
      && (s.lookups[k].reply.None? ==> t.lookups[k] == s.lookups[k].(reply := Some(Get(s.created, k))))
      && (s.lookups[k].reply.Some? ==> t == s)
  {
    assert s.lookups[k].reply.Some? ==> s.(lookups := s.lookups) == s;
  }

  /** If it fails, a reserved permit waits for the next recovery. */
  lemma LookupFailureMeans(s: State, k: Key)
    requires k in s.lookups
    ensures
      var t := Step(s, EvRecoverThrew(k));
      && k !in t.lookups && t == s.(lookups := t.lookups, unresolvedRecoveries := t.unresolvedRecoveries)
      && (s.lookups[k].recovery.Some? ==> Get(t.unresolvedRecoveries, k) == s.lookups[k].recovery)
      && (s.lookups[k].recovery.None? ==> t.unresolvedRecoveries == s.unresolvedRecoveries)
  {
  }

  /** When the backend knows no run of the key, nothing of it is counted or kept any more. */
  lemma NothingFoundMeans(s: State, k: Key)
    requires SharedInv(s) && k in s.lookups && s.lookups[k].reply == Some(None)
    ensures
      var t := Step(s, EvRecoverResumed(k));
      k !in t.live && k !in t.lookups && k !in t.unresolvedLaunches && k !in t.unresolvedRecoveries && k !in t.runIds
  {
    assert KeySound(s, k);
    var r := s.(lookups := s.lookups - {k});
    var f := s.lookups[k];
    assert Of(r, k).(lookup := Some(f)) == Of(s, k);
    NothingOf(r, k, f, k);
    NothingIsKept(Of(r, k), f, k);
    assert Of(RecoveredNothing(r, k, f), k).live.None?;
    hide RecoveredNothing;
  }

  lemma NothingIsKept(x: Slice, f: Lookup, k: Key)
    requires x.(lookup := Some(f)).Sound(k) && f.reply == Some(None)
    ensures x.run.None?
  {
  }

  /**
   * A run that was found and is held by nobody is bound to the key with the permit that was kept or reserved, and
   * its status is asked; a permit that was reserved in vain is given back.
   */
  lemma RunFoundMeans(s: State, k: Key, run: RunId)
    requires SharedInv(s) && k in s.lookups && s.lookups[k].reply == Some(Some(run))
    ensures
      var f := s.lookups[k];
      var t := Step(s, EvRecoverResumed(k));
      && k !in t.lookups
      && (f.unresolved.Some? && run !in s.releases ==>
            IsBound(t, k, run, f.unresolved.value) && k !in t.unresolvedLaunches && Get(t.inspecting, k) == Some(Inspection(run, false)))
      && (f.unresolved.None? && f.recovery.Some? && run !in s.releases && run !in s.terminalRuns ==>
            && IsBound(t, k, run, f.recovery.value) && k !in t.unresolvedRecoveries
            && Get(t.inspecting, k) == Some(Inspection(run, true)) && run in t.recoveringRuns)
      && (f.unresolved.None? && f.recovery.Some? && (run in s.releases || run in s.terminalRuns) ==>
            k !in t.live && k !in t.unresolvedRecoveries && t.releases == s.releases && t.runIds == s.runIds)
      && (f.unresolved.None? && f.recovery.None? ==> t.live == s.live && t.releases == s.releases && t.runIds == s.runIds)
  {
    assert KeySound(s, k);
    FoundPermits(s, k);
    var f, r := s.lookups[k], s.(lookups := s.lookups - {k});
    hide KeySound, RunsHeld, RecoveredLaunch, RecoveredFresh, RecoveredBound, EndGuard, IsBound;
    if f.unresolved.Some? {
      LaunchFound(r, k, f.unresolved.value, run);
    } else if f.recovery.Some? {
      FreshFound(r, k, f.recovery.value, run);
      InVain(r, k, f.recovery.value);
    } else {
      InVainNothing(r, k, run);
    }
  }

  lemma LaunchFound(s: State, k: Key, permit: nat, run: RunId)
    requires Get(s.live, k) == Some(permit)
    ensures
      var t := RecoveredLaunch(s, k, permit, run);
      t.lookups == s.lookups
      && (run !in s.releases ==>
            IsBound(t, k, run, permit) && k !in t.unresolvedLaunches && Get(t.inspecting, k) == Some(Inspection(run, false)))
  {
  }

  lemma FreshFound(s: State, k: Key, permit: nat, run: RunId)
    requires Get(s.live, k) == Some(permit)
    ensures
      var t := RecoveredFresh(s, k, permit, run);
      && t.lookups == s.lookups && k !in t.unresolvedRecoveries
      && (run !in s.terminalRuns ==>
            IsBound(t, k, run, permit) && Get(t.inspecting, k) == Some(Inspection(run, true)) && run in t.recoveringRuns)
      && (run in s.terminalRuns ==> k !in t.live && t.releases == s.releases && t.runIds == s.runIds)
  {
  }

  lemma InVain(s: State, k: Key, permit: nat)
    requires Get(s.live, k) == Some(permit)
    ensures
      var t := RecoveredBound(s, k, Some(permit));
      t.lookups == s.lookups && k !in t.live && k !in t.unresolvedRecoveries && t.releases == s.releases && t.runIds == s.runIds
  {
  }

  lemma InVainNothing(s: State, k: Key, run: RunId)
    ensures
      var t, u := RecoveredBound(s, k, None), EndGuard(s, run, true);
      && t.lookups == s.lookups && t.live == s.live && t.releases == s.releases && t.runIds == s.runIds
      && u.lookups == s.lookups && u.live == s.live && u.releases == s.releases && u.runIds == s.runIds
  {
  }

  /** What a suspended recovery remembers is counted. */
  lemma FoundPermits(s: State, k: Key)
    requires KeySound(s, k) && k in s.lookups
    ensures
      var f := s.lookups[k];
      && (f.unresolved.Some? ==> Get(s.live, k) == f.unresolved)
      && (f.recovery.Some? ==> Get(s.live, k) == f.recovery && f.unresolved.None? && f.retainedPermit.None?)
  {
    var x := Of(s, k);
    assert x.lookup == Some(s.lookups[k]) && x.LookupOk(s.lookups[k]);
    assert x.Matches(UnresolvedLaunch);
  }

  /** Whoever held a run that is seen terminal holds it no longer, and its permit is given back. */
  ghost predicate GivenBack(s: State, t: State, run: RunId) {
    && run !in t.releases
    && (run in s.releases ==> s.releases[run].key !in t.live && s.releases[run].key !in t.runIds)
    && (forall r :: r in s.releases && r != run ==> r in t.releases && t.releases[r] == s.releases[r])
    && (forall l :: l in s.live && !(run in s.releases && s.releases[run].key == l) ==> l in t.live && t.live[l] == s.live[l])
  }

  /** Every run that is held is bound to its key, whose permit is counted. */
  ghost predicate AllBound(s: State) {
    forall r :: r in s.releases ==> IsBound(s, s.releases[r].key, r, s.releases[r].permit)
  }

  lemma HeldAreBound(s: State)
    requires SharedInv(s)
    ensures AllBound(s)
  {
    forall r | r in s.releases ensures IsBound(s, s.releases[r].key, r, s.releases[r].permit) {
      var k := s.releases[r].key;
      assert KeySound(s, k);
      SoundIsBound(s, k);
      assert Of(s, k).held == Some(s.releases[r]);
    }
  }

  lemma ReleaseGivesBack(s: State, run: RunId)
    requires AllBound(s)
    ensures GivenBack(s, ReleaseRun(s, run), run)
  {
    if run in s.releases { assert IsBound(s, s.releases[run].key, run, s.releases[run].permit); }
  }

  /** Only these three parts matter for it. */
  lemma SameHoldings(s: State, m: State, t: State, run: RunId)
    requires m.live == s.live && m.releases == s.releases && m.runIds == s.runIds
    ensures AllBound(s) ==> AllBound(m)
    ensures GivenBack(m, t, run) ==> GivenBack(s, t, run)
  {
  }

  lemma ReleaseLeavesMarks(s: State, run: RunId)
    ensures ReleaseRun(s, run).terminalRuns == s.terminalRuns
  {
  }

  /** A terminal status or result of a run gives its permit back, and is remembered while a recovery of it runs. */
  lemma TerminalMeans(s: State, run: RunId)
    requires SharedInv(s)
    ensures
      var t := Step(s, EvTerminalObserved(run));
      && GivenBack(s, t, run)
      && t.terminalRuns == if run in s.recoveringRuns then s.terminalRuns + {run} else s.terminalRuns
  {
    HeldAreBound(s);
    var m := Marked(s, run);
    hide SharedInv, AllBound, GivenBack, ReleaseRun;
    ReleaseLeavesMarks(m, run);
    SameHoldings(s, m, ReleaseRun(m, run), run);
    ReleaseGivesBack(m, run);
  }

  /** So does the status that a recovery asks for, if it is terminal; any other leaves the permit where it is. */
  lemma InspectionMeans(s: State, k: Key, seen: Seen)
    requires SharedInv(s) && k in s.inspecting
    ensures
      var run := s.inspecting[k].run;
      var t := Step(s, EvInspectResumed(k, seen));
      && k !in t.inspecting
      && (seen.Terminal? ==> GivenBack(s, t, run))
      && (!seen.Terminal? ==> t.live == s.live && t.releases == s.releases && t.runIds == s.runIds)
      && (s.inspecting[k].guarded ==> run !in t.recoveringRuns && run !in t.terminalRuns)
  {
    HeldAreBound(s);
    var i, m := s.inspecting[k], EndInspection(s, k);
    hide SharedInv, AllBound, GivenBack;
    var released := ReleaseRun(m, i.run);
    SameHoldings(s, m, released, i.run);
    ReleaseGivesBack(m, i.run);
    GuardLeavesHoldings(s, released, i);
    GuardLeavesHoldings(s, m, i);
  }

  lemma GuardLeavesHoldings(s: State, t: State, i: Inspection)
    ensures
      var u := EndGuard(t, i.run, i.guarded);
      && u.live == t.live && u.releases == t.releases && u.runIds == t.runIds && u.inspecting == t.inspecting
      && (GivenBack(s, t, i.run) ==> GivenBack(s, u, i.run))
      && (i.guarded ==> i.run !in u.recoveringRuns && i.run !in u.terminalRuns)
  {
  }

  /** A launch that nothing disturbs takes a permit, holds it while its run lasts, and gives it back. */
  lemma PermitComesBack(s: State, k: Key)
    requires k !in s.live && k in s.created && s.created[k] !in s.releases
    ensures
      var running := Step(Step(s, EvLaunchAdmitted(k)), EvLaunchReturned(k));
      var over := Step(running, EvTerminalObserved(s.created[k]));
      IsBound(running, k, s.created[k], s.nextPermit) && over.live == s.live && over.releases == s.releases
  {
    hide LaunchAdmitted, LaunchReturned, TerminalObserved;
    RunsAfterLaunch(s, k);
    var running := Step(Step(s, EvLaunchAdmitted(k)), EvLaunchReturned(k));
    BoundRunEnds(running, k, s.created[k], s.nextPermit);
    assert s.live[k := s.nextPermit] - {k} == s.live;
    assert s.releases[s.created[k] := Held(k, s.nextPermit)] - {s.created[k]} == s.releases;
  }

  lemma BoundRunEnds(s: State, k: Key, run: RunId, permit: nat)
    requires IsBound(s, k, run, permit)
    ensures TerminalObserved(s, run).live == s.live - {k} && TerminalObserved(s, run).releases == s.releases - {run}
  {
    hide ReleaseRun;
    BoundRunReleased(Marked(s, run), k, run, permit);
  }

  lemma BoundRunReleased(s: State, k: Key, run: RunId, permit: nat)
    requires IsBound(s, k, run, permit)
    ensures ReleaseRun(s, run).live == s.live - {k} && ReleaseRun(s, run).releases == s.releases - {run}
  {
  }

  lemma RunsAfterLaunch(s: State, k: Key)
    requires k !in s.live && k in s.created && s.created[k] !in s.releases
    ensures
      var running := Step(Step(s, EvLaunchAdmitted(k)), EvLaunchReturned(k));
      var run := s.created[k];
      && running.live == s.live[k := s.nextPermit] && running.runIds == s.runIds[k := run]
      && running.releases == s.releases[run := Held(k, s.nextPermit)]
  {
  }

  // ---------------------------------------------------------------- the adapter object

  class ConcurrencyLimitedAgentAdapter {
    /** The scheduler's active permits by admission id, and the number of the next one. */
    var live: map<Key, nat>
    var nextPermit: nat
    /** Calls of `launch` that wait for the backend. */
    var launching: map<Key, nat>
    var releases: map<RunId, Held>
    var runIdsByIdempotencyKey: map<Key, RunId>
    var unresolvedLaunches: map<Key, nat>
    var unresolvedRecoveries: map<Key, nat>
    /** Calls of `recover` that wait for the lookup, or for the status of the run found. */
    var lookups: map<Key, Lookup>
    var inspecting: map<Key, Inspection>
    var recoveringRuns: set<RunId>
    var terminalRuns: set<RunId>

    /** The adapter together with the backend it talks to. */
    ghost function View(created: map<Key, RunId>): State
      reads this
    {
      State(live, nextPermit, launching, releases, runIdsByIdempotencyKey, unresolvedLaunches,
            unresolvedRecoveries, lookups, inspecting, recoveringRuns, terminalRuns, created)
    }

    constructor ()
      ensures View(map[]) == Init
    {
      live, nextPermit, launching, releases, runIdsByIdempotencyKey := map[], 0, map[], map[], map[];
      unresolvedLaunches, unresolvedRecoveries, lookups, inspecting := map[], map[], map[], map[];
      recoveringRuns, terminalRuns := {}, {};
    }

    /** Calls a release closure of the scheduler. */
    method FreePermit(k: Key, permit: nat)
      modifies this`live
      ensures live == Drop(old(live), k, permit)
    {
      if k in live && live[k] == permit { live := live - {k}; }
    }

    method ReleaseHeld(run: RunId, ghost created: map<Key, RunId>)
      modifies this
      ensures View(created) == ReleaseRun(old(View(created)), run)
    {
      if run in releases {
        var held := releases[run];
        FreePermit(held.key, held.permit);
        runIdsByIdempotencyKey := runIdsByIdempotencyKey - {held.key};
        releases := releases - {run};
      }
    }

    /** `launch` after the scheduler admitted it. */
    method LaunchGoesAhead(k: Key, ghost created: map<Key, RunId>) returns (admitted: bool)
      modifies this
      ensures View(created) == LaunchAdmitted(old(View(created)), k) && admitted == (k !in old(live))
    {
      admitted := k !in live;
      if admitted {
        live := live[k := nextPermit];
        launching := launching[k := nextPermit];
        nextPermit := nextPermit + 1;
      }
    }

    /** `launch` after the backend returned a handle; false when the run belongs to another key. */
    method LaunchReturns(k: Key, run: RunId, ghost created: map<Key, RunId>) returns (ok: bool)
      requires k in launching && Get(created, k) == Some(run)
      modifies this
      ensures View(created) == LaunchReturned(old(View(created)), k)
      ensures ok <==> run !in old(releases) || old(releases)[run].key == k
    {
      var permit := launching[k];
      launching := launching - {k};
      ok := true;
      if run in releases {
        if releases[run].key != k {
          ok := false;
          unresolvedLaunches := unresolvedLaunches[k := permit];
        } else {
          FreePermit(k, permit);
        }
      } else {
        releases := releases[run := Held(k, permit)];
        runIdsByIdempotencyKey := runIdsByIdempotencyKey[k := run];
      }
    }

    method LaunchThrows(k: Key, ghost created: map<Key, RunId>)
      requires k in launching
      modifies this
      ensures View(created) == LaunchThrew(old(View(created)), k)
    {
      unresolvedLaunches := unresolvedLaunches[k := launching[k]];
      launching := launching - {k};
    }

    /** `findByIdempotencyKey` up to the lookup; false when `acquireExisting` refuses. */
    method StartRecovery(k: Key, idTaken: bool, ghost created: map<Key, RunId>) returns (ok: bool)
      modifies this
      ensures View(created) == RecoverStart(old(View(created)), k, idTaken)
      ensures !ok ==> (idTaken || k in old(live)) && View(created) == old(View(created))
    {
      if k in lookups || k in inspecting { return true; }
      var unresolved := Get(unresolvedLaunches, k);
      var retainedRecovery := Get(unresolvedRecoveries, k);
      var retainedRun := Get(runIdsByIdempotencyKey, k);
      var retainedPermit := if retainedRun.None? then None else Get(releases, retainedRun.value);
      var recovery := retainedRecovery;
      if unresolved.None? && retainedRecovery.None? && retainedPermit.None? {
        if idTaken || k in live { return false; }
        live := live[k := nextPermit];
        recovery := Some(nextPermit);
        nextPermit := nextPermit + 1;
      }
      lookups := lookups[k := Lookup(unresolved, recovery, retainedRun, retainedPermit, None)];
      return true;
    }

    method RecoveryThrows(k: Key, ghost created: map<Key, RunId>)
      requires k in lookups
      modifies this
      ensures View(created) == RecoverThrew(old(View(created)), k)
    {
      var recovery := lookups[k].recovery;
      lookups := lookups - {k};
      if recovery.Some? { unresolvedRecoveries := unresolvedRecoveries[k := recovery.value]; }
    }

    /** `recover` after a lookup that found nothing. */
    method RecoveryFindsNothing(k: Key, ghost created: map<Key, RunId>)
      requires k in lookups && lookups[k].reply == Some(None)
      modifies this
      ensures View(created) == RecoverResumed(old(View(created)), k)
    {
      var f := lookups[k];
      lookups := lookups - {k};
      if f.unresolved.Some? { FreePermit(k, f.unresolved.value); }
      if f.recovery.Some? { FreePermit(k, f.recovery.value); }
      if f.retainedRun.Some? { ReleaseHeld(f.retainedRun.value, created); }
      unresolvedLaunches := unresolvedLaunches - {k};
      unresolvedRecoveries := unresolvedRecoveries - {k};
    }

    method BindUnresolved(k: Key, permit: nat, run: RunId, ghost created: map<Key, RunId>)
      modifies this
      ensures View(created) == RecoveredLaunch(old(View(created)), k, permit, run)
    {
      unresolvedLaunches := unresolvedLaunches - {k};
      if run in releases {
        if releases[run].key != k { return; }
        FreePermit(k, permit);
      } else {
        releases := releases[run := Held(k, permit)];
      }
      runIdsByIdempotencyKey := runIdsByIdempotencyKey[k := run];
      inspecting := inspecting[k := Inspection(run, false)];
    }

    method BindReserved(k: Key, permit: nat, run: RunId, ghost created: map<Key, RunId>)
      modifies this
      ensures View(created) == RecoveredFresh(old(View(created)), k, permit, run)
    {
      recoveringRuns := recoveringRuns + {run};
      unresolvedRecoveries := unresolvedRecoveries - {k};
      if run in terminalRuns {
        FreePermit(k, permit);
      } else {
        releases := releases[run := Held(k, permit)];
        runIdsByIdempotencyKey := runIdsByIdempotencyKey[k := run];
      }
      inspecting := inspecting[k := Inspection(run, true)];
    }

    /** `recover` after a lookup that found a run. */
    method RecoveryFinds(k: Key, run: RunId, ghost created: map<Key, RunId>)
      requires k in lookups && lookups[k].reply == Some(Some(run))
      modifies this
      ensures View(created) == RecoverResumed(old(View(created)), k)
    {
      var f := lookups[k];
      lookups := lookups - {k};
      if f.unresolved.Some? {
        BindUnresolved(k, f.unresolved.value, run, created);
      } else if run in releases {
        if f.recovery.Some? { FreePermit(k, f.recovery.value); }
        unresolvedRecoveries := unresolvedRecoveries - {k};
      } else if f.retainedPermit.Some? && f.retainedRun == Some(run) {
      } else if f.recovery.None? {
        recoveringRuns := recoveringRuns - {run};
        terminalRuns := terminalRuns - {run};
      } else {
        BindReserved(k, f.recovery.value, run, created);
      }
    }

    /** `inspectRecoveredRun` after the status arrived, and the `finally` of `recover`. */
    method InspectionResumes(k: Key, seen: Seen, ghost created: map<Key, RunId>)
      requires k in inspecting
      modifies this
      ensures View(created) == InspectResumed(old(View(created)), k, seen)
    {
      var i := inspecting[k];
      inspecting := inspecting - {k};
      if seen.Terminal? { ReleaseHeld(i.run, created); }
      if i.guarded {
        recoveringRuns := recoveringRuns - {i.run};
        terminalRuns := terminalRuns - {i.run};
      }
    }

    /** `status` and `result` after they saw the run terminal. */
    method ObserveTerminal(run: RunId, ghost created: map<Key, RunId>)
      modifies this
      ensures View(created) == TerminalObserved(old(View(created)), run)
    {
      if run in recoveringRuns { terminalRuns := terminalRuns + {run}; }
      ReleaseHeld(run, created);
    }
  }
}
