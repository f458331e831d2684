/**
 * Launching through the local Superset bridge, which cannot be asked what it has already started.  An intent is
 * written ahead of the one call that creates a session and replaced by the binding afterwards.  A step is one
 * await of `launch`; processes may crash between any two of them, and the call they leave behind may still
 * create its session later.
 */
module SupersetLaunch {
  import opened Common

  type Key = nat
  type Pid = nat

  /** The run-state file.  A session is named by the `agents_create` call that created it. */
  datatype Disk = Disk(runs: map<Key, nat>, pending: set<Key>)

  datatype Progress = InFlight | Made | Refused

  datatype Call = Call(key: Key, progress: Progress) {
    predicate Live() { progress != Refused }
  }

  /** Where a process stands inside `exclusive`; `seen` is the state object it holds in memory. */
  datatype Phase =
    | Intent(key: Key, seen: Disk)
    | Withdraw(key: Key, seen: Disk)
    | Calling(key: Key, seen: Disk, call: nat)
    | Clear(key: Key, seen: Disk)
    | Bind(key: Key, seen: Disk, call: nat)

  datatype Reply = Reply(key: Key, session: nat)

  datatype State = State(disk: Disk, lock: Option<Pid>, procs: map<Pid, Phase>, calls: seq<Call>, replies: seq<Reply>)

  const Init := State(Disk(map[], {}), None, map[], [], [])

  /** Replacing the file is atomic, but an error may be reported although the new contents landed. */
  datatype Write = Written | FailedButLanded | NotLanded

  datatype Answer = Usable | Unusable | UnknownOutcome | Rejection

  function Leave(s: State, p: Pid): State {
    s.(procs := s.procs - {p}, lock := if s.lock == Some(p) then None else s.lock)
  }

  /** `exclusive` gets the lock and the state is read. */
  function Begin(s: State, p: Pid, k: Key): State {
    if s.lock.Some? || p in s.procs then s
    else if k in s.disk.runs then s.(replies := s.replies + [Reply(k, s.disk.runs[k])])
    else if k in s.disk.pending then s
    else s.(lock := Some(p), procs := s.procs[p := Intent(k, s.disk)])
  }

  function WithIntent(d: Disk, k: Key): Disk { d.(pending := d.pending + {k}) }

  function WithoutIntent(d: Disk, k: Key): Disk { d.(pending := d.pending - {k}) }

  function WithRun(d: Disk, k: Key, session: nat): Disk {
    Disk(d.runs[k := session], d.pending - {k})
  }

  function IntentWritten(s: State, p: Pid, w: Write): State {
    if p !in s.procs || !s.procs[p].Intent? then s
    else
      var k, seen := s.procs[p].key, s.procs[p].seen;
      var next := WithIntent(seen, k);
      if w.Written? then
        s.(disk := next, calls := s.calls + [Call(k, InFlight)], procs := s.procs[p := Calling(k, next, |s.calls|)])
      else
        s.(disk := if w.NotLanded? then s.disk else next, procs := s.procs[p := Withdraw(k, next)])
  }

  /** The attempt to withdraw an intent whose write failed; its own failure is swallowed. */
  function Withdrawn(s: State, p: Pid, landed: bool): State {
    if p !in s.procs || !s.procs[p].Withdraw? then s
    else Leave(s.(disk := if landed then WithoutIntent(s.procs[p].seen, s.procs[p].key) else s.disk), p)
  }

  function ProviderCreates(s: State, call: nat): State {
    if call < |s.calls| && s.calls[call].progress.InFlight? then
      s.(calls := s.calls[call := s.calls[call].(progress := Made)])
    else s
  }

  /** The provider answers, or the wait for it ends.  A process that lost its lock writes nothing more. */
  function Answered(s: State, p: Pid, a: Answer): State {
    if p !in s.procs || !s.procs[p].Calling? || s.procs[p].call >= |s.calls| then s
    else
      var k, seen, call := s.procs[p].key, s.procs[p].seen, s.procs[p].call;
      if a.Rejection? && s.calls[call].progress.InFlight? then
        var t := s.(calls := s.calls[call := Call(k, Refused)]);
        if s.lock == Some(p) then t.(procs := s.procs[p := Clear(k, seen)]) else Leave(t, p)
      else if a.Usable? && s.calls[call].progress.Made? then
        if s.lock == Some(p) then s.(procs := s.procs[p := Bind(k, seen, call)]) else Leave(s, p)
      else if a.Unusable? || a.UnknownOutcome? then Leave(s, p)
      else s
  }

  function Cleared(s: State, p: Pid, landed: bool): State {
    if p !in s.procs || !s.procs[p].Clear? then s
    else Leave(s.(disk := if landed then WithoutIntent(s.procs[p].seen, s.procs[p].key) else s.disk), p)
  }

  function BindingWritten(s: State, p: Pid, w: Write): State {
    if p !in s.procs || !s.procs[p].Bind? then s
    else
      var k, call := s.procs[p].key, s.procs[p].call;
      Leave(s.(disk := if w.NotLanded? then s.disk else WithRun(s.procs[p].seen, k, call),
               replies := if w.Written? then s.replies + [Reply(k, call)] else s.replies), p)
  }

  /** The lock of a process that is waiting for the provider goes stale and is reclaimed. */
  function LockLost(s: State, p: Pid): State {
    if s.lock == Some(p) && p in s.procs && s.procs[p].Calling? then s.(lock := None) else s
  }

  function Crashed(s: State, p: Pid): State {
    if p in s.procs then Leave(s, p) else s
  }

  datatype Event =
    | EvBegin(p: Pid, key: Key)
    | EvIntentWritten(p: Pid, write: Write)
    | EvWithdrawn(p: Pid, landed: bool)
    | EvProviderCreates(call: nat)
    | EvAnswered(p: Pid, answer: Answer)
    | EvCleared(p: Pid, landed: bool)
    | EvBindingWritten(p: Pid, write: Write)
    | EvLockLost(p: Pid)
    | EvCrashed(p: Pid)

  function Step(s: State, e: Event): State {
    match e
    case EvBegin(p, k) => Begin(s, p, k)
    case EvIntentWritten(p, w) => IntentWritten(s, p, w)
    case EvWithdrawn(p, landed) => Withdrawn(s, p, landed)
    case EvProviderCreates(call) => ProviderCreates(s, call)
    case EvAnswered(p, a) => Answered(s, p, a)
    case EvCleared(p, landed) => Cleared(s, p, landed)
    case EvBindingWritten(p, w) => BindingWritten(s, p, w)
    case EvLockLost(p) => LockLost(s, p)
    case EvCrashed(p) => Crashed(s, p)
  }

  function Run(events: seq<Event>): State {
    if events == [] then Init else Step(Run(events[..|events| - 1]), events[|events| - 1])
  }

  // ---------------------------------------------------------------- invariants

  ghost predicate NoLive(calls: seq<Call>, k: Key) {
    forall a :: 0 <= a < |calls| && calls[a].key == k ==> !calls[a].Live()
  }

  /** The file accounts for every call that created a session or still may, and for only one per key. */
  ghost predicate Recorded(d: Disk, calls: seq<Call>) {
    && (forall a :: 0 <= a < |calls| && calls[a].Live() ==> calls[a].key in d.runs || calls[a].key in d.pending)
    && (forall a, b :: 0 <= a < b < |calls| && calls[a].Live() && calls[b].Live() ==> calls[a].key != calls[b].key)
    && (forall k :: k in d.runs ==>
          d.runs[k] < |calls| && calls[d.runs[k]] == Call(k, Made) && k !in d.pending)
  }

  /** What a process inside `exclusive` may rely on. */
  ghost predicate PhaseOk(d: Disk, holds: bool, calls: seq<Call>, f: Phase) {
    match f
    case Intent(k, seen) => holds && seen == d && k !in d.runs && k !in d.pending
    case Withdraw(k, seen) =>
      holds && NoLive(calls, k) && k !in d.runs && k in seen.pending && (d == seen || d == WithoutIntent(seen, k))
    case Calling(k, seen, a) =>
      a < |calls| && calls[a].key == k && calls[a].Live() && (holds ==> seen == d && k in d.pending)
    case Clear(k, seen) => holds && NoLive(calls, k) && seen == d && k in d.pending
    case Bind(k, seen, a) =>
      holds && a < |calls| && calls[a] == Call(k, Made) && seen == d && k in d.pending
  }

  predicate HasCall(f: Phase) { f.Calling? || f.Bind? }

  ghost predicate Processes(s: State) {
    && (s.lock.Some? ==> s.lock.value in s.procs)
    && (forall p :: p in s.procs ==> PhaseOk(s.disk, s.lock == Some(p), s.calls, s.procs[p]))
    && (forall p, q :: p in s.procs && q in s.procs && p != q && HasCall(s.procs[p]) && HasCall(s.procs[q]) ==>
          s.procs[p].call != s.procs[q].call)
  }

  ghost predicate Honest(d: Disk, replies: seq<Reply>) {
    forall i :: 0 <= i < |replies| ==> replies[i].key in d.runs && d.runs[replies[i].key] == replies[i].session
  }

  ghost predicate Inv(s: State) {
    Recorded(s.disk, s.calls) && Processes(s) && Honest(s.disk, s.replies)
  }

  /** Bindings only accumulate. */
  ghost predicate Keeps(d: Disk, e: Disk) {
    forall k :: k in d.runs ==> k in e.runs && e.runs[k] == d.runs[k]
  }

  lemma NotRecordedNoLive(d: Disk, calls: seq<Call>, k: Key)
    requires Recorded(d, calls) && k !in d.runs && k !in d.pending
    ensures NoLive(calls, k)
  {
  }

  /** Ending a section, or crashing in it, harms nobody. */
  lemma LeaveInv(s: State, p: Pid)
    requires Inv(s)
    ensures Inv(Leave(s, p))
  {
    hide Recorded, PhaseOk, Honest;
  }

  /** While one process holds the lock the others are at most waiting for the provider. */
  lemma OthersCalling(s: State, p: Pid)
    requires Processes(s) && s.lock == Some(p)
    ensures forall q :: q in s.procs && q != p ==> s.procs[q].Calling?
  {
    forall q | q in s.procs && q != p ensures s.procs[q].Calling? {
      assert PhaseOk(s.disk, false, s.calls, s.procs[q]);
    }
  }

  lemma BeginInv(s: State, p: Pid, k: Key)
    requires Inv(s)
    ensures Inv(Begin(s, p, k))
  {
    hide Recorded;
  }

  lemma IntentWrittenInv(s: State, p: Pid, w: Write)
    requires Inv(s)
    ensures Inv(IntentWritten(s, p, w)) && Keeps(s.disk, IntentWritten(s, p, w).disk)
  {
    if p in s.procs && s.procs[p].Intent? {
      var k := s.procs[p].key;
      assert PhaseOk(s.disk, s.lock == Some(p), s.calls, s.procs[p]);
      NotRecordedNoLive(s.disk, s.calls, k);
      OthersCalling(s, p);
    }
  }

  lemma WithdrawnInv(s: State, p: Pid, landed: bool)
    requires Inv(s)
    ensures Inv(Withdrawn(s, p, landed)) && Keeps(s.disk, Withdrawn(s, p, landed).disk)
  {
    if p in s.procs && s.procs[p].Withdraw? {
      assert PhaseOk(s.disk, s.lock == Some(p), s.calls, s.procs[p]);
      OthersCalling(s, p);
    }
  }

  lemma ProviderCreatesInv(s: State, call: nat)
    requires Inv(s)
    ensures Inv(ProviderCreates(s, call))
  {
    if call < |s.calls| && s.calls[call].progress.InFlight? {
      var t := ProviderCreates(s, call);
      assert forall a :: 0 <= a < |s.calls| ==> t.calls[a].key == s.calls[a].key && t.calls[a].Live() == s.calls[a].Live();
      assert Recorded(t.disk, t.calls);
      forall p | p in s.procs ensures PhaseOk(t.disk, t.lock == Some(p), t.calls, t.procs[p]) {
        assert PhaseOk(s.disk, s.lock == Some(p), s.calls, s.procs[p]);
      }
    }
  }

  /** A call its process still waits for is known to be the only live one for its key. */
  lemma RefusedLeavesNoLive(d: Disk, calls: seq<Call>, a: nat)
    requires Recorded(d, calls) && a < |calls| && calls[a].Live()
    ensures NoLive(calls[a := calls[a].(progress := Refused)], calls[a].key)
  {
  }

  lemma AnsweredInv(s: State, p: Pid, a: Answer)
    requires Inv(s)
    ensures Inv(Answered(s, p, a))
  {
    if p in s.procs && s.procs[p].Calling? {
      assert PhaseOk(s.disk, s.lock == Some(p), s.calls, s.procs[p]);
      if s.lock == Some(p) { OthersCalling(s, p); }
      if a.Rejection? && s.calls[s.procs[p].call].progress.InFlight? {
        RejectedInv(s, p);
      }
    }
  }

  lemma RejectedInv(s: State, p: Pid)
    requires Inv(s) && p in s.procs && s.procs[p].Calling? && s.procs[p].call < |s.calls|
    requires s.calls[s.procs[p].call].progress.InFlight?
    ensures Inv(Answered(s, p, Rejection))
  {
    var call, t := s.procs[p].call, Answered(s, p, Rejection);
    assert PhaseOk(s.disk, s.lock == Some(p), s.calls, s.procs[p]);
    RefusedLeavesNoLive(s.disk, s.calls, call);
    assert Recorded(t.disk, t.calls);
    if s.lock == Some(p) { OthersCalling(s, p); }
    forall q | q in t.procs ensures PhaseOk(t.disk, t.lock == Some(q), t.calls, t.procs[q]) {
      assert PhaseOk(s.disk, s.lock == Some(q), s.calls, s.procs[q]);
    }
  }

  lemma ClearedInv(s: State, p: Pid, landed: bool)
    requires Inv(s)
    ensures Inv(Cleared(s, p, landed)) && Keeps(s.disk, Cleared(s, p, landed).disk)
  {
    if p in s.procs && s.procs[p].Clear? {
      assert PhaseOk(s.disk, s.lock == Some(p), s.calls, s.procs[p]);
      OthersCalling(s, p);
    }
  }

  lemma BindingWrittenInv(s: State, p: Pid, w: Write)
    requires Inv(s)
    ensures Inv(BindingWritten(s, p, w)) && Keeps(s.disk, BindingWritten(s, p, w).disk)
  {
    if p in s.procs && s.procs[p].Bind? {
      assert PhaseOk(s.disk, s.lock == Some(p), s.calls, s.procs[p]);
      OthersCalling(s, p);
    }
  }

  lemma LockLostInv(s: State, p: Pid)
    requires Inv(s)
    ensures Inv(LockLost(s, p))
  {
    if s.lock == Some(p) && p in s.procs && s.procs[p].Calling? {
      OthersCalling(s, p);
      forall q | q in s.procs ensures PhaseOk(s.disk, false, s.calls, s.procs[q]) {
        assert PhaseOk(s.disk, s.lock == Some(q), s.calls, s.procs[q]);
      }
    }
  }

  lemma StepInv(s: State, e: Event)
    requires Inv(s)
    ensures Inv(Step(s, e)) && Keeps(s.disk, Step(s, e).disk)
  {
    hide Inv;
    match e
    case EvBegin(p, k) => BeginInv(s, p, k);
    case EvIntentWritten(p, w) => IntentWrittenInv(s, p, w);
    case EvWithdrawn(p, landed) => WithdrawnInv(s, p, landed);
    case EvProviderCreates(call) => ProviderCreatesInv(s, call);
    case EvAnswered(p, a) => AnsweredInv(s, p, a);
    case EvCleared(p, landed) => ClearedInv(s, p, landed);
    case EvBindingWritten(p, w) => BindingWrittenInv(s, p, w);
    case EvLockLost(p) => LockLostInv(s, p);
    case EvCrashed(p) => if p in s.procs { LeaveInv(s, p); }
  }

  lemma {:induction false} RunInv(events: seq<Event>)
    ensures Inv(Run(events))
  {
    if events != [] {
      RunInv(events[..|events| - 1]);
      StepInv(Run(events[..|events| - 1]), events[|events| - 1]);
      hide Inv, Step;
    }
  }

  // ---------------------------------------------------------------- what holds over every run

  /** However often, and in however many processes, a key is launched, it starts at most one session. */
  lemma OneSessionPerKey(events: seq<Event>, a: nat, b: nat)
    requires a < |Run(events).calls| && b < |Run(events).calls| && a != b
    requires Run(events).calls[a].progress.Made? && Run(events).calls[b].Live()
    ensures Run(events).calls[a].key != Run(events).calls[b].key
  {
    RunInv(events);
  }

  /** A session that exists, or may still come to exist, has its key in the file. */
  lemma NoSessionForgotten(events: seq<Event>, a: nat)
    requires a < |Run(events).calls| && Run(events).calls[a].Live()
    ensures Run(events).calls[a].key in Run(events).disk.runs || Run(events).calls[a].key in Run(events).disk.pending
  {
    RunInv(events);
  }

  lemma {:induction false} BindingsNeverChange(events: seq<Event>, n: nat)
    requires n <= |events|
    ensures Keeps(Run(events[..n]).disk, Run(events).disk)
  {
    if n == |events| {
      assert events[..n] == events;
    } else {
      var before := events[..|events| - 1];
      assert before[..n] == events[..n];
      BindingsNeverChange(before, n);
      RunInv(before);
      StepInv(Run(before), events[|events| - 1]);
      hide Inv, Step;
    }
  }

  /** Every handle ever returned for a key names the one session that was created for it. */
  lemma RepliesAgree(events: seq<Event>, i: nat, j: nat)
    requires i < |Run(events).replies| && j < |Run(events).replies|
    ensures
      var s := Run(events);
      && s.replies[i].session < |s.calls| && s.calls[s.replies[i].session] == Call(s.replies[i].key, Made)
      && (s.replies[i].key == s.replies[j].key ==> s.replies[i].session == s.replies[j].session)
  {
    RunInv(events);
    var s := Run(events);
    assert s.replies[i].key in s.disk.runs && s.replies[j].key in s.disk.runs;
  }

  // ---------------------------------------------------------------- keys blocked for nothing

  /** The process is inside `exclusive` for this key. */
  predicate Owns(s: State, p: Pid, k: Key) { p in s.procs && s.procs[p].key == k }

  /**
   * The price of writing ahead: a key is pending, so every launch of it is refused, although no session of it
   * exists or can still come to exist and nobody is at work on it.
   */
  ghost predicate Blocked(s: State, k: Key) {
    k in s.disk.pending && NoLive(s.calls, k) && forall p :: p in s.procs ==> s.procs[p].key != k
  }

  /**
   * The steps that do this to a key: the withdrawal of an intent, after its own write failed but landed or after
   * the call was rejected, does not land or is cut off by a crash; or the rejection arrives when the lock is
   * gone.
   */
  predicate Blocks(s: State, e: Event, k: Key) {
    match e
    case EvWithdrawn(p, landed) => Owns(s, p, k) && s.procs[p].Withdraw? && k in s.disk.pending && !landed
    case EvCleared(p, landed) => Owns(s, p, k) && s.procs[p].Clear? && !landed
    case EvAnswered(p, a) =>
      && Owns(s, p, k) && s.procs[p].Calling? && a.Rejection? && s.lock != Some(p)
      && s.procs[p].call < |s.calls| && s.calls[s.procs[p].call].progress.InFlight?
    case EvCrashed(p) =>
      Owns(s, p, k) && ((s.procs[p].Withdraw? && k in s.disk.pending) || s.procs[p].Clear?)
    case _ => false
  }

  /** Only one process at a time is at work on a key. */
  lemma OneOwner(s: State, p: Pid, q: Pid, k: Key)
    requires Inv(s) && Owns(s, p, k) && Owns(s, q, k)
    ensures p == q
  {
    OwnedKey(s, p, k);
    OwnedKey(s, q, k);
    assert PhaseOk(s.disk, s.lock == Some(p), s.calls, s.procs[p]);
    assert PhaseOk(s.disk, s.lock == Some(q), s.calls, s.procs[q]);
    if HasCall(s.procs[p]) && HasCall(s.procs[q]) {
      LiveCallIsTheOne(s.disk, s.calls, s.procs[p].call, s.procs[q].call);
    }
  }

  lemma LiveCallIsTheOne(d: Disk, calls: seq<Call>, a: nat, b: nat)
    requires Recorded(d, calls) && a < |calls| && b < |calls| && calls[a].Live() && calls[b].Live()
    requires calls[a].key == calls[b].key
    ensures a == b
  {
  }

  /** A key somebody is working on has a live call, is not pending, or is one whose intent is being withdrawn. */
  lemma OwnedKey(s: State, p: Pid, k: Key)
    requires Inv(s) && Owns(s, p, k)
    ensures s.procs[p].Calling? || s.procs[p].Bind? ==> !NoLive(s.calls, k)
    ensures s.procs[p].Intent? ==> k !in s.disk.pending && NoLive(s.calls, k)
    ensures s.procs[p].Withdraw? || s.procs[p].Clear? ==> NoLive(s.calls, k)
    ensures s.procs[p].Clear? ==> k in s.disk.pending
  {
    assert PhaseOk(s.disk, s.lock == Some(p), s.calls, s.procs[p]);
    if s.procs[p].Calling? || s.procs[p].Bind? {
      assert s.calls[s.procs[p].call].key == k && s.calls[s.procs[p].call].Live();
    }
  }

  lemma BlockedByStep(s: State, e: Event, k: Key)
    requires Inv(s) && Blocks(s, e, k)
    ensures Blocked(Step(s, e), k)
  {
    var t := Step(s, e);
    forall q | q in t.procs ensures t.procs[q].key != k {
      if q in s.procs && s.procs[q].key == k { OneOwner(s, e.p, q, k); }
    }
    OwnedKey(s, e.p, k);
    if e.EvAnswered? {
      RefusedLeavesNoLive(s.disk, s.calls, s.procs[e.p].call);
      assert s.calls[s.procs[e.p].call].Live();
    }
  }

  /** Conversely, a key is only blocked by such a step, or was before. */
  lemma BlockedBefore(s: State, e: Event, k: Key)
    requires Inv(s) && Blocked(Step(s, e), k)
    ensures Blocked(s, k) || Blocks(s, e, k)
  {
    if e.EvProviderCreates? {
      LiveAsBefore(s, e.call, k);
    } else if !e.EvLockLost? && e.p in s.procs {
      assert PhaseOk(s.disk, s.lock == Some(e.p), s.calls, s.procs[e.p]);
      OthersStay(s, e, k);
      if Owns(s, e.p, k) {
        OwnedKey(s, e.p, k);
        OwnerLeft(s, e, k);
      } else {
        OtherKeyStep(s, e, k);
      }
    }
  }

  lemma LiveAsBefore(s: State, call: nat, k: Key)
    requires NoLive(ProviderCreates(s, call).calls, k)
    ensures NoLive(s.calls, k)
  {
    var t := ProviderCreates(s, call);
    forall a | 0 <= a < |s.calls| && s.calls[a].key == k ensures !s.calls[a].Live() {
      assert t.calls[a].key == k;
    }
  }

  /** A step of one process leaves the others where they are. */
  lemma OthersStay(s: State, e: Event, k: Key)
    requires !e.EvProviderCreates? && Blocked(Step(s, e), k)
    ensures forall q :: q in s.procs && q != e.p ==> s.procs[q].key != k
  {
    forall q | q in s.procs && q != e.p ensures s.procs[q].key != k {
      assert q in Step(s, e).procs && Step(s, e).procs[q] == s.procs[q];
    }
  }

  /** The owner of a key is gone after the step and the key is blocked. */
  lemma OwnerLeft(s: State, e: Event, k: Key)
    requires Inv(s) && !e.EvProviderCreates? && !e.EvLockLost? && Owns(s, e.p, k) && Blocked(Step(s, e), k)
    ensures Blocks(s, e, k)
  {
    var t := Step(s, e);
    OwnedKey(s, e.p, k);
    assert !Owns(t, e.p, k);
    if s.procs[e.p].Calling? || s.procs[e.p].Bind? {
      var a := s.procs[e.p].call;
      assert PhaseOk(s.disk, s.lock == Some(e.p), s.calls, s.procs[e.p]);
      assert s.calls[a].key == k && s.calls[a].Live() && t.calls[a].key == k;
    }
  }

  /** A step of a process on another key changes nothing for this one. */
  lemma OtherKeyStep(s: State, e: Event, k: Key)
    requires Inv(s) && !e.EvProviderCreates? && !e.EvLockLost? && e.p in s.procs && s.procs[e.p].key != k
    requires Blocked(Step(s, e), k)
    ensures k in s.disk.pending && NoLive(s.calls, k)
  {
    var t := Step(s, e);
    assert PhaseOk(s.disk, s.lock == Some(e.p), s.calls, s.procs[e.p]);
    forall a | 0 <= a < |s.calls| && s.calls[a].key == k ensures !s.calls[a].Live() {
      assert t.calls[a] == s.calls[a];
    }
  }

  /** A step blocks a key exactly when it is one of those. */
  lemma BlockedExactly(s: State, e: Event, k: Key)
    requires Inv(s) && !Blocked(s, k)
    ensures Blocked(Step(s, e), k) <==> Blocks(s, e, k)
  {
    hide Inv, Blocked, Blocks, Step;
    if Blocks(s, e, k) { BlockedByStep(s, e, k); }
    if Blocked(Step(s, e), k) { BlockedBefore(s, e, k); }
  }

  /** And it stays blocked: no launch of it is ever let in again. */
  lemma StaysBlocked(s: State, e: Event, k: Key)
    requires Inv(s) && Blocked(s, k)
    ensures Blocked(Step(s, e), k)
  {
    if e.EvProviderCreates? {
      var t := Step(s, e);
      forall a | 0 <= a < |t.calls| && t.calls[a].key == k ensures !t.calls[a].Live() {
        assert s.calls[a].key == k;
      }
    } else if e.p in s.procs {
      assert PhaseOk(s.disk, s.lock == Some(e.p), s.calls, s.procs[e.p]);
      StaysNoLive(s, e, k);
    } else {
      assert k !in s.disk.runs by { PendingNotBound(s, k); }
    }
  }

  lemma PendingNotBound(s: State, k: Key)
    requires Inv(s) && k in s.disk.pending
    ensures k !in s.disk.runs
  {
  }

  lemma StaysNoLive(s: State, e: Event, k: Key)
    requires Inv(s) && Blocked(s, k) && !e.EvProviderCreates? && e.p in s.procs
    ensures NoLive(Step(s, e).calls, k)
  {
    var t := Step(s, e);
    assert PhaseOk(s.disk, s.lock == Some(e.p), s.calls, s.procs[e.p]);
    forall a | 0 <= a < |t.calls| && t.calls[a].key == k ensures !t.calls[a].Live() {
      assert a < |s.calls| ==> s.calls[a].key == t.calls[a].key;
    }
  }

  /** It happened at some point of the history. */
  ghost predicate EverBlocks(events: seq<Event>, k: Key) {
    exists i :: 0 <= i < |events| && Blocks(Run(events[..i]), events[i], k)
  }

  lemma LastBlock(events: seq<Event>, e: Event, k: Key)
    ensures EverBlocks(events + [e], k) <==> EverBlocks(events, k) || Blocks(Run(events), e, k)
  {
    hide Blocks, Run;
    var all := events + [e];
    assert all[..|events|] == events && all[|events|] == e;
    assert forall i :: 0 <= i < |events| ==> all[..i] == events[..i] && all[i] == events[i];
    if EverBlocks(events, k) {
      var i :| 0 <= i < |events| && Blocks(Run(events[..i]), events[i], k);
      assert Blocks(Run(all[..i]), all[i], k);
    }
    if EverBlocks(all, k) {
      var i :| 0 <= i < |all| && Blocks(Run(all[..i]), all[i], k);
      assert i < |events| ==> Blocks(Run(events[..i]), events[i], k);
    }
  }

  /** Over a whole history a key is blocked exactly when one of those steps happened to it. */
  lemma {:induction false} BlockedKeysExactly(events: seq<Event>, k: Key)
    ensures Blocked(Run(events), k) <==> EverBlocks(events, k)
  {
    if events == [] {
      NothingBlocked(k);
    } else {
      hide Inv, Blocked, Blocks, EverBlocks, Step;
      var before, e := events[..|events| - 1], events[|events| - 1];
      BlockedKeysExactly(before, k);
      RunInv(before);
      LastBlock(before, e, k);
      assert before + [e] == events;
      if Blocked(Run(before), k) { StaysBlocked(Run(before), e, k); } else { BlockedExactly(Run(before), e, k); }
    }
  }

  lemma NothingBlocked(k: Key)
    ensures !Blocked(Run([]), k)
  {
  }

  /** The shortest way there. */
  lemma IntentCanOutliveItsLaunch(p: Pid, k: Key)
    ensures
      var s := Run([EvBegin(p, k), EvIntentWritten(p, FailedButLanded), EvWithdrawn(p, false)]);
      s.calls == [] && s.procs == map[] && Blocked(s, k) && Begin(s, p, k) == s
  {
    var e1, e2, e3 := EvBegin(p, k), EvIntentWritten(p, FailedButLanded), EvWithdrawn(p, false);
    assert [e1, e2, e3][..2] == [e1, e2] && [e1, e2][..1] == [e1] && [e1][..0] == [];
    var s1 := Begin(Init, p, k);
    assert Run([e1]) == s1;
    var s2 := IntentWritten(s1, p, FailedButLanded);
    assert Run([e1, e2]) == s2;
    assert Run([e1, e2, e3]) == Withdrawn(s2, p, false);
  }

  // ---------------------------------------------------------------- sessions nobody binds

  ghost predicate HasSession(calls: seq<Call>, k: Key) {
    exists a :: 0 <= a < |calls| && calls[a] == Call(k, Made)
  }

  /** The key is pending for good although its session exists: nobody is at work on it to write the binding. */
  ghost predicate Unbound(s: State, k: Key) {
    k in s.disk.pending && HasSession(s.calls, k) && forall p :: p in s.procs ==> s.procs[p].key != k
  }

  /**
   * The steps that leave a session so: the provider creates it when its caller is gone; the caller of a call
   * that made it goes away, because it crashes, because the answer names no session or never comes, or because
   * it has lost the lock; or the binding does not reach the disk.
   */
  predicate Abandons(s: State, e: Event, k: Key) {
    match e
    case EvProviderCreates(call) =>
      call < |s.calls| && s.calls[call] == Call(k, InFlight) && forall p :: p in s.procs ==> s.procs[p].key != k
    case EvAnswered(p, a) =>
      && Owns(s, p, k) && s.procs[p].Calling? && s.procs[p].call < |s.calls| && s.calls[s.procs[p].call].progress.Made?
      && (a.Unusable? || a.UnknownOutcome? || (a.Usable? && s.lock != Some(p)))
    case EvBindingWritten(p, w) => Owns(s, p, k) && s.procs[p].Bind? && w.NotLanded?
    case EvCrashed(p) =>
      && Owns(s, p, k) && HasCall(s.procs[p]) && s.procs[p].call < |s.calls| && s.calls[s.procs[p].call].progress.Made?
    case _ => false
  }

  /** A live call of a key that somebody is calling or binding is that process's own, and the key is pending. */
  lemma OwnCall(s: State, p: Pid, k: Key)
    requires Inv(s) && Owns(s, p, k) && HasCall(s.procs[p])
    ensures s.procs[p].call < |s.calls| && s.calls[s.procs[p].call].key == k && s.calls[s.procs[p].call].Live()
    ensures forall a :: 0 <= a < |s.calls| && s.calls[a].key == k && s.calls[a].Live() ==> a == s.procs[p].call
  {
    assert PhaseOk(s.disk, s.lock == Some(p), s.calls, s.procs[p]);
    forall a | 0 <= a < |s.calls| && s.calls[a].key == k && s.calls[a].Live() ensures a == s.procs[p].call {
      LiveCallIsTheOne(s.disk, s.calls, a, s.procs[p].call);
    }
  }

  /** A process that has a call of an unbound key keeps it pending. */
  ghost predicate CallsPending(s: State) {
    forall p :: p in s.procs && HasCall(s.procs[p]) ==> s.procs[p].key in s.disk.pending
  }

  lemma CallsPendingStep(s: State, e: Event)
    requires Inv(s) && CallsPending(s)
    ensures CallsPending(Step(s, e))
  {
    var t := Step(s, e);
    forall q | q in t.procs && HasCall(t.procs[q]) ensures t.procs[q].key in t.disk.pending {
      CallPendingStep(s, e, q);
    }
  }

  /** A key stops being pending only when its owner is done with it. */
  lemma PendingUntilDone(s: State, e: Event, k: Key)
    requires Inv(s) && k in s.disk.pending && k !in Step(s, e).disk.pending
    ensures !e.EvProviderCreates? && Owns(s, e.p, k) && e.p !in Step(s, e).procs
  {
    hide Honest, Recorded;
    assert !e.EvProviderCreates?;
    if e.p in s.procs { assert PhaseOk(s.disk, s.lock == Some(e.p), s.calls, s.procs[e.p]); }
  }

  lemma NewCallPending(s: State, e: Event, q: Pid)
    requires Inv(s) && q in Step(s, e).procs && HasCall(Step(s, e).procs[q])
    ensures
      var k := Step(s, e).procs[q].key;
      (q in s.procs && HasCall(s.procs[q]) && s.procs[q].key == k) || k in Step(s, e).disk.pending
  {
    hide Honest, Recorded, PhaseOk;
  }

  lemma CallPendingStep(s: State, e: Event, q: Pid)
    requires Inv(s) && CallsPending(s) && q in Step(s, e).procs && HasCall(Step(s, e).procs[q])
    ensures Step(s, e).procs[q].key in Step(s, e).disk.pending
  {
    NewCallPending(s, e, q);
    hide Inv, Step;
    var k := Step(s, e).procs[q].key;
    if k in s.disk.pending && k !in Step(s, e).disk.pending {
      PendingUntilDone(s, e, k);
      OneOwner(s, e.p, q, k);
      assert false;
    }
  }

  lemma AbandonedNow(s: State, e: Event, k: Key)
    requires Inv(s) && CallsPending(s) && Abandons(s, e, k)
    ensures Unbound(Step(s, e), k)
  {
    var t := Step(s, e);
    if e.EvProviderCreates? {
      assert t.calls[e.call] == Call(k, Made);
      CreatedIsPending(s, e.call, k);
    } else {
      OwnCall(s, e.p, k);
      assert PhaseOk(s.disk, s.lock == Some(e.p), s.calls, s.procs[e.p]);
      assert s.calls[s.procs[e.p].call] == Call(k, Made) && t.calls == s.calls;
      forall q | q in t.procs ensures t.procs[q].key != k {
        if q in s.procs && s.procs[q].key == k { OneOwner(s, e.p, q, k); }
      }
    }
  }

  lemma CreatedIsPending(s: State, call: nat, k: Key)
    requires Inv(s) && call < |s.calls| && s.calls[call] == Call(k, InFlight)
    ensures k in s.disk.pending
  {
    if k in s.disk.runs { LiveCallIsTheOne(s.disk, s.calls, call, s.disk.runs[k]); }
  }

  lemma OthersRemain(s: State, e: Event, q: Pid)
    requires !e.EvProviderCreates? && q in s.procs && q != e.p
    ensures q in Step(s, e).procs && Step(s, e).procs[q] == s.procs[q]
  {
  }

  /** A key that a process does not own becomes pending only by its own launch. */
  lemma PendingBefore(s: State, e: Event, k: Key)
    requires Inv(s) && !e.EvProviderCreates? && k in Step(s, e).disk.pending && !Owns(s, e.p, k)
    ensures k in s.disk.pending
  {
    if e.p in s.procs { assert PhaseOk(s.disk, s.lock == Some(e.p), s.calls, s.procs[e.p]); }
  }

  /** Its owner goes away only by one of those steps. */
  lemma OwnerAbandons(s: State, e: Event, k: Key, a: nat)
    requires Inv(s) && !e.EvProviderCreates? && Owns(s, e.p, k) && !Owns(Step(s, e), e.p, k)
    requires a < |s.calls| && s.calls[a] == Call(k, Made) && k in Step(s, e).disk.pending
    ensures Abandons(s, e, k)
  {
    assert PhaseOk(s.disk, s.lock == Some(e.p), s.calls, s.procs[e.p]);
    OwnedKey(s, e.p, k);
    assert s.calls[a].Live();
    assert HasCall(s.procs[e.p]);
    OwnCall(s, e.p, k);
  }

  /** Conversely, a session is only left unbound by such a step, or was before. */
  lemma UnboundBefore(s: State, e: Event, k: Key)
    requires Inv(s) && Unbound(Step(s, e), k)
    ensures Unbound(s, k) || Abandons(s, e, k)
  {
    var t := Step(s, e);
    var a :| 0 <= a < |t.calls| && t.calls[a] == Call(k, Made);
    if e.EvProviderCreates? {
      if e.call == a { assert a < |s.calls|; } else { assert s.calls[a] == t.calls[a]; }
    } else {
      MadeBefore(s, e, a, k);
      hide Inv, Abandons, Step;
      if Owns(s, e.p, k) {
        OwnerAbandons(s, e, k, a);
      } else {
        PendingBefore(s, e, k);
        forall q | q in s.procs ensures s.procs[q].key != k {
          if q != e.p { OthersRemain(s, e, q); }
        }
      }
    }
  }

  /** Only the provider makes a call. */
  lemma MadeBefore(s: State, e: Event, a: nat, k: Key)
    requires !e.EvProviderCreates? && a < |Step(s, e).calls| && Step(s, e).calls[a] == Call(k, Made)
    ensures a < |s.calls| && s.calls[a] == Call(k, Made)
  {
  }

  /** A step leaves a session unbound exactly when it is one of those. */
  lemma UnboundExactly(s: State, e: Event, k: Key)
    requires Inv(s) && CallsPending(s) && !Unbound(s, k)
    ensures Unbound(Step(s, e), k) <==> Abandons(s, e, k)
  {
    hide Inv, CallsPending, Unbound, Abandons, Step;
    if Abandons(s, e, k) { AbandonedNow(s, e, k); }
    if Unbound(Step(s, e), k) { UnboundBefore(s, e, k); }
  }

  /** And it stays so: every later launch of the key is refused. */
  lemma UnboundStays(s: State, e: Event, k: Key)
    requires Inv(s) && Unbound(s, k)
    ensures Unbound(Step(s, e), k)
  {
    var t := Step(s, e);
    var a :| 0 <= a < |s.calls| && s.calls[a] == Call(k, Made);
    if !e.EvProviderCreates? && e.p in s.procs {
      assert PhaseOk(s.disk, s.lock == Some(e.p), s.calls, s.procs[e.p]);
    }
    assert t.calls[a] == Call(k, Made);
    assert k in t.disk.pending;
    if e.EvBegin? && e.key == k { assert t == s by { PendingNotBound(s, k); } }
    forall q | q in t.procs ensures t.procs[q].key != k {
      assert q in s.procs ==> t.procs[q].key == s.procs[q].key;
    }
  }

  /** It happened at some point of the history. */
  ghost predicate EverAbandons(events: seq<Event>, k: Key) {
    exists i :: 0 <= i < |events| && Abandons(Run(events[..i]), events[i], k)
  }

  lemma LastAbandoning(events: seq<Event>, e: Event, k: Key)
    ensures EverAbandons(events + [e], k) <==> EverAbandons(events, k) || Abandons(Run(events), e, k)
  {
    hide Abandons, Run;
    var all := events + [e];
    assert all[..|events|] == events && all[|events|] == e;
    assert forall i :: 0 <= i < |events| ==> all[..i] == events[..i] && all[i] == events[i];
    if EverAbandons(events, k) {
      var i :| 0 <= i < |events| && Abandons(Run(events[..i]), events[i], k);
      assert Abandons(Run(all[..i]), all[i], k);
    }
    if EverAbandons(all, k) {
      var i :| 0 <= i < |all| && Abandons(Run(all[..i]), all[i], k);
      assert i < |events| ==> Abandons(Run(events[..i]), events[i], k);
    }
  }

  lemma {:induction false} RunCallsPending(events: seq<Event>)
    ensures CallsPending(Run(events))
  {
    if events != [] {
      RunCallsPending(events[..|events| - 1]);
      RunInv(events[..|events| - 1]);
      CallsPendingStep(Run(events[..|events| - 1]), events[|events| - 1]);
      hide Inv, Step, CallsPending;
    }
  }

  /** Over a whole history a session is left unbound exactly when one of those steps happened to its key. */
  lemma {:induction false} UnboundSessionsExactly(events: seq<Event>, k: Key)
    ensures Unbound(Run(events), k) <==> EverAbandons(events, k)
  {
    if events == [] {
      NothingUnbound(k);
    } else {
      hide Inv, CallsPending, Unbound, Abandons, EverAbandons, Step;
      var before, e := events[..|events| - 1], events[|events| - 1];
      UnboundSessionsExactly(before, k);
      RunInv(before);
      RunCallsPending(before);
      LastAbandoning(before, e, k);
      assert before + [e] == events;
      if Unbound(Run(before), k) { UnboundStays(Run(before), e, k); } else { UnboundExactly(Run(before), e, k); }
    }
  }

  lemma NothingUnbound(k: Key)
    ensures !Unbound(Run([]), k)
  {
  }

  // ---------------------------------------------------------------- launches that succeed

  /** `t` has `k` bound to session `c` and everything else of the file as before. */
  ghost predicate BoundTo(d: Disk, t: Disk, k: Key, c: nat) {
    t.runs == d.runs[k := c] && k !in t.pending && t.pending + {k} == d.pending + {k}
  }

  /** A usable answer, taken with the lock held, and the write of the binding that lands, bind the session made. */
  lemma UsableAnswerBinds(s: State, p: Pid, w: Write)
    requires Inv(s) && s.lock == Some(p) && p in s.procs && s.procs[p].Calling? && s.procs[p].call < |s.calls|
    requires s.calls[s.procs[p].call].progress.Made? && !w.NotLanded?
    ensures
      var k, c := s.procs[p].key, s.procs[p].call;
      var t := Step(Step(s, EvAnswered(p, Usable)), EvBindingWritten(p, w));
      && BoundTo(s.disk, t.disk, k, c) && p !in t.procs && t.lock.None? && t.calls == s.calls
      && t.replies == s.replies + (if w.Written? then [Reply(k, c)] else [])
  {
    assert PhaseOk(s.disk, true, s.calls, s.procs[p]);
  }

  /** A process that enters for a bound key is answered with its session, and for a pending one it is refused. */
  lemma EntryMeans(s: State, q: Pid, k: Key)
    requires s.lock.None? && q !in s.procs
    ensures
      var t := Step(s, EvBegin(q, k));
      && t.disk == s.disk && t.calls == s.calls
      && (k in s.disk.runs ==> t == s.(replies := s.replies + [Reply(k, s.disk.runs[k])]))
      && (k !in s.disk.runs && k in s.disk.pending ==> t == s)
      && (k !in s.disk.runs && k !in s.disk.pending ==>
            t.lock == Some(q) && t.replies == s.replies && q in t.procs && t.procs[q].Intent? && t.procs[q].key == k
            && forall o :: o != q ==> (o in t.procs <==> o in s.procs) && (o in s.procs ==> t.procs[o] == s.procs[o]))
  {
  }

  /** While somebody holds the lock nobody enters. */
  lemma BusyMeans(s: State, q: Pid, k: Key)
    requires s.lock.Some?
    ensures Step(s, EvBegin(q, k)) == s
  {
  }

  /** Once its intent is written a launch makes one call; if the write fails it makes none and withdraws. */
  lemma IntentMeans(s: State, p: Pid, w: Write)
    requires Inv(s) && p in s.procs && s.procs[p].Intent?
    ensures
      var k := s.procs[p].key;
      var t := Step(s, EvIntentWritten(p, w));
      && p in t.procs && t.procs[p].key == k && t.lock == Some(p) && t.disk.runs == s.disk.runs
      && t.disk.pending == (if w.NotLanded? then s.disk.pending else s.disk.pending + {k})
      && (w.Written? ==> t.calls == s.calls + [Call(k, InFlight)] && t.procs[p].Calling? && t.procs[p].call == |s.calls|)
      && (!w.Written? ==> t.calls == s.calls && t.procs[p].Withdraw?)
  {
    assert PhaseOk(s.disk, s.lock == Some(p), s.calls, s.procs[p]);
  }

  /** An intent that is withdrawn, or cleared after a rejection, frees its key again if that reaches the disk. */
  lemma WithdrawalMeans(s: State, p: Pid, landed: bool)
    requires Inv(s) && p in s.procs && (s.procs[p].Withdraw? || s.procs[p].Clear?)
    ensures
      var k := s.procs[p].key;
      var t := Step(s, if s.procs[p].Withdraw? then EvWithdrawn(p, landed) else EvCleared(p, landed));
      && p !in t.procs && t.lock.None? && t.calls == s.calls && t.replies == s.replies && t.disk.runs == s.disk.runs
      && t.disk.pending == if landed then s.disk.pending - {k} else s.disk.pending
  {
    assert PhaseOk(s.disk, s.lock == Some(p), s.calls, s.procs[p]);
  }

  /** A rejection of a call in flight leads to the removal of its intent, by whoever still holds the lock. */
  lemma RejectionMeans(s: State, p: Pid)
    requires Inv(s) && p in s.procs && s.procs[p].Calling? && s.procs[p].call < |s.calls| && s.calls[s.procs[p].call].progress.InFlight?
    ensures
      var k, c := s.procs[p].key, s.procs[p].call;
      var t := Step(s, EvAnswered(p, Rejection));
      && t.disk == s.disk && t.calls == s.calls[c := Call(k, Refused)]
      && (s.lock == Some(p) ==> p in t.procs && t.procs[p].Clear? && t.procs[p].key == k)
      && (s.lock != Some(p) ==> p !in t.procs)
  {
    assert PhaseOk(s.disk, s.lock == Some(p), s.calls, s.procs[p]);
  }

  /** The provider creates a session once; a lock goes stale only under a waiting process; a crash writes nothing. */
  lemma SurroundingsMean(s: State, call: nat, p: Pid)
    ensures
      var t := Step(s, EvProviderCreates(call));
      if call < |s.calls| && s.calls[call].progress == InFlight then t == s.(calls := s.calls[call := Call(s.calls[call].key, Made)])
      else t == s
    ensures
      var t := Step(s, EvLockLost(p));
      if s.lock == Some(p) && p in s.procs && s.procs[p].Calling? then t == s.(lock := None) else t == s
    ensures
      var t := Step(s, EvCrashed(p));
      && t.disk == s.disk && t.calls == s.calls && t.replies == s.replies && p !in t.procs
      && (p in s.procs && s.lock == Some(p) ==> t.lock.None?) && (s.lock != Some(p) ==> t.lock == s.lock)
      && forall q :: q != p ==> (q in t.procs <==> q in s.procs) && (q in s.procs ==> t.procs[q] == s.procs[q])
  {
  }

  /** A launch that nothing interrupts: from a free key to its session, its binding and its reply. */
  lemma UninterruptedLaunch(s: State, p: Pid, k: Key)
    requires Inv(s) && s.lock.None? && p !in s.procs && k !in s.disk.runs && k !in s.disk.pending
    ensures
      var c := |s.calls|;
      var called := Step(Step(Step(s, EvBegin(p, k)), EvIntentWritten(p, Written)), EvProviderCreates(c));
      var t := Step(Step(called, EvAnswered(p, Usable)), EvBindingWritten(p, Written));
      && t.disk.runs == s.disk.runs[k := c] && t.disk.pending == s.disk.pending && t.lock.None? && t.procs == s.procs
      && t.calls == s.calls + [Call(k, Made)] && t.replies == s.replies + [Reply(k, c)]
  {
    var entered := Step(s, EvBegin(p, k));
    var intended := Step(entered, EvIntentWritten(p, Written));
    assert s.disk.pending + {k} - {k} == s.disk.pending;
    assert intended.calls == s.calls + [Call(k, InFlight)];
    assert (s.calls + [Call(k, InFlight)])[|s.calls| := Call(k, Made)] == s.calls + [Call(k, Made)];
    assert s.procs[p := Intent(k, s.disk)] - {p} == s.procs;
  }

  // ---------------------------------------------------------------- the adapter object

  /** The state object one `launch` reads, edits in place and writes back. */
  class ProviderState {
    var runs: map<Key, nat>
    var pending: set<Key>

    function View(): Disk
      reads this
    {
      Disk(runs, pending)
    }

    constructor (d: Disk)
      ensures View() == d
    {
      runs, pending := d.runs, d.pending;
    }

    method AddIntent(k: Key)
      modifies this
      ensures View() == WithIntent(old(View()), k)
    {
      pending := pending + {k};
    }

    method DropIntent(k: Key)
      modifies this
      ensures View() == WithoutIntent(old(View()), k)
    {
      pending := pending - {k};
    }

    method AddRun(k: Key, session: nat)
      modifies this
      ensures View() == WithRun(old(View()), k, session)
    {
      pending := pending - {k};
      runs := runs[k := session];
    }
  }

  /** The run-state file with its lock, the processes using it and the calls they made. */
  class RunStateFile {
    var disk: Disk
    var lock: Option<Pid>
    var procs: map<Pid, Phase>
    var calls: seq<Call>
    var replies: seq<Reply>

    ghost function View(): State
      reads this
    {
      State(disk, lock, procs, calls, replies)
    }

    ghost predicate Valid()
      reads this
    {
      Inv(View())
    }

    constructor ()
      ensures Valid() && View() == Init
    {
      disk, lock, procs, calls, replies := Disk(map[], {}), None, map[], [], [];
      new;
      RunInv([]);
    }

    /** The end of `exclusive`. */
    method Release(p: Pid)
      modifies `procs, `lock
      ensures View() == Leave(old(View()), p)
    {
      procs := procs - {p};
      if lock == Some(p) { lock := None; }
    }

    /** `launch` up to its first write: a bound key is answered, a pending one refused. */
    method Enter(p: Pid, k: Key) returns (bound: Option<nat>)
      requires Valid() && lock.None? && p !in procs
      modifies this
      ensures Valid() && View() == Begin(old(View()), p, k)
      ensures bound == if k in disk.runs then Some(disk.runs[k]) else None
    {
      BeginInv(View(), p, k);
      bound := None;
      if k in disk.runs {
        bound := Some(disk.runs[k]);
        replies := replies + [Reply(k, disk.runs[k])];
      } else if k !in disk.pending {
        lock := Some(p);
        procs := procs[p := Intent(k, disk)];
      }
    }

    method WriteIntent(p: Pid, w: Write)
      requires Valid() && p in procs && procs[p].Intent?
      modifies this
      ensures Valid() && View() == IntentWritten(old(View()), p, w)
    {
      IntentWrittenInv(View(), p, w);
      hide Inv;
      var k := procs[p].key;
      var state := new ProviderState(procs[p].seen);
      state.AddIntent(k);
      if w != NotLanded { disk := state.View(); }
      if w == Written {
        procs := procs[p := Calling(k, state.View(), |calls|)];
        calls := calls + [Call(k, InFlight)];
      } else {
        procs := procs[p := Withdraw(k, state.View())];
      }
    }

    /** `clearPending`, after a failed intent or a refused call. */
    method ClearPending(p: Pid, landed: bool)
      requires Valid() && p in procs && (procs[p].Withdraw? || procs[p].Clear?)
      modifies this
      ensures Valid()
      ensures View() == if old(procs)[p].Withdraw? then Withdrawn(old(View()), p, landed) else Cleared(old(View()), p, landed)
    {
      WithdrawnInv(View(), p, landed);
      ClearedInv(View(), p, landed);
      hide Inv;
      var state := new ProviderState(procs[p].seen);
      state.DropIntent(procs[p].key);
      if landed { disk := state.View(); }
      Release(p);
    }

    /** What `launch` does when `callTool` settles; `assertLockHeld` stops it if the lock is gone. */
    method TakeAnswer(p: Pid, a: Answer)
      requires Valid() && p in procs && procs[p].Calling?
      modifies this
      ensures Valid() && View() == Answered(old(View()), p, a)
      ensures disk == old(disk) && replies == old(replies)
      ensures a == Usable && old(procs)[p].call < |old(calls)| && old(calls)[old(procs)[p].call].progress == Made ==>
                if old(lock) == Some(p) then
                  && p in procs && procs[p].Bind? && lock == Some(p)
                  && procs[p].key == old(procs)[p].key && procs[p].call == old(procs)[p].call
                else p !in procs
    {
      AnsweredInv(View(), p, a);
      assert procs[p].call < |calls|;
      hide Inv;
      var k, seen, call := procs[p].key, procs[p].seen, procs[p].call;
      if a == Rejection {
        if calls[call].progress != InFlight { return; }
        calls := calls[call := Call(k, Refused)];
        if lock == Some(p) { procs := procs[p := Clear(k, seen)]; } else { Release(p); }
      } else if a == Usable {
        if calls[call].progress != Made { return; }
        if lock == Some(p) { procs := procs[p := Bind(k, seen, call)]; } else { Release(p); }
      } else {
        Release(p);
      }
    }

    method WriteBinding(p: Pid, w: Write)
      requires Valid() && p in procs && procs[p].Bind?
      modifies this
      ensures Valid() && View() == BindingWritten(old(View()), p, w)
      ensures w != NotLanded ==> BoundTo(old(disk), disk, old(procs)[p].key, old(procs)[p].call)
      ensures w == NotLanded ==> disk == old(disk)
      ensures replies == old(replies) + if w == Written then [Reply(old(procs)[p].key, old(procs)[p].call)] else []
      ensures p !in procs && lock.None?
    {
      BindingWrittenInv(View(), p, w);
      assert PhaseOk(disk, lock == Some(p), calls, procs[p]);
      hide Inv;
      var k, call := procs[p].key, procs[p].call;
      var state := new ProviderState(procs[p].seen);
      state.AddRun(k, call);
      if w != NotLanded { disk := state.View(); }
      if w == Written { replies := replies + [Reply(k, call)]; }
      Release(p);
    }
  }
}
