/**
 * The tamper-evident log of security decisions.  The hash of an event is a parameter, taken as collision-free
 * where a theorem says so.
 */
module AuditChain {
  import opened Common

  /** Everything the hash covers; `content` stands for the fields that are neither position nor link. */
  datatype Body = Body(sequence: nat, content: string, previousHash: nat)

  datatype Event = Event(body: Body, eventHash: nat)

  datatype Head = Head(sequence: nat, eventHash: nat)

  datatype Log = Log(events: seq<Event>, head: Option<Head>)

  type Hash = Body -> nat

  const Genesis: nat := 0

  ghost predicate CollisionFree(hash: Hash) {
    forall a: Body, b: Body :: hash(a) == hash(b) ==> a == b
  }

  /** The hash the event at position `i` must link to. */
  function Before(events: seq<Event>, i: nat): nat
    requires i <= |events|
  {
    if i == 0 then Genesis else events[i - 1].eventHash
  }

  predicate Linked(hash: Hash, events: seq<Event>, i: nat)
    requires i < |events|
  {
    && events[i].body.sequence == i + 1
    && events[i].body.previousHash == Before(events, i)
    && hash(events[i].body) == events[i].eventHash
  }

  predicate HeadFits(log: Log) {
    match log.head
    case None => log.events == []
    case Some(h) => h.sequence == |log.events| && h.eventHash == Before(log.events, |log.events|)
  }

  ghost predicate Valid(hash: Hash, log: Log) {
    (forall i :: 0 <= i < |log.events| ==> Linked(hash, log.events, i)) && HeadFits(log)
  }

  /** `appendSecurityAuditToState`, on a log that has been found valid. */
  function Append(hash: Hash, log: Log, content: string): Log {
    var sequence := if log.events == [] then 1 else log.events[|log.events| - 1].body.sequence + 1;
    var body := Body(sequence, content, Before(log.events, |log.events|));
    Log(log.events + [Event(body, hash(body))], Some(Head(sequence, hash(body))))
  }

  lemma AppendValid(hash: Hash, log: Log, content: string)
    requires Valid(hash, log)
    ensures Valid(hash, Append(hash, log, content))
    ensures log.events < Append(hash, log, content).events
  {
    var t := Append(hash, log, content);
    if log.events != [] { assert Linked(hash, log.events, |log.events| - 1); }
    forall i | 0 <= i < |t.events| ensures Linked(hash, t.events, i) {
      if i < |log.events| { assert Linked(hash, log.events, i); }
    }
  }

  /** The log after a series of decisions. */
  function Written(hash: Hash, contents: seq<string>): Log {
    if contents == [] then Log([], None)
    else Append(hash, Written(hash, contents[..|contents| - 1]), contents[|contents| - 1])
  }

  lemma {:induction false} WrittenValid(hash: Hash, contents: seq<string>)
    ensures Valid(hash, Written(hash, contents)) && |Written(hash, contents).events| == |contents|
    ensures forall i :: 0 <= i < |contents| ==> Written(hash, contents).events[i].body.content == contents[i]
  {
    if contents != [] {
      WrittenValid(hash, contents[..|contents| - 1]);
      AppendValid(hash, Written(hash, contents[..|contents| - 1]), contents[|contents| - 1]);
    }
  }

  /** The event is numbered by its place, names the hash of the one before, and its hash is its own. */
  predicate InPlace(hash: Hash, events: seq<Event>, i: nat)
    requires i < |events|
  {
    && events[i].body.sequence == i + 1 && events[i].eventHash == hash(events[i].body)
    && events[i].body.previousHash == if i > 0 then events[i - 1].eventHash else 0
  }

  /** A log is intact when every event is in place and the head names the last; only an empty log may lack a head. */
  lemma ValidMeans(hash: Hash, log: Log)
    ensures Valid(hash, log) <==>
              && (forall i :: 0 <= i < |log.events| ==> InPlace(hash, log.events, i))
              && (if log.head.None? then |log.events| == 0
                  else
                    && log.head.value.sequence == |log.events|
                    && log.head.value.eventHash == if |log.events| > 0 then log.events[|log.events| - 1].eventHash else 0)
  {
    assert forall i :: 0 <= i < |log.events| ==> (Linked(hash, log.events, i) <==> InPlace(hash, log.events, i));
  }

  /** An append adds one event with the decision, and moves the head to it. */
  lemma AppendMeans(hash: Hash, log: Log, content: string)
    ensures
      var t := Append(hash, log, content);
      && |t.events| == |log.events| + 1 && t.events[..|log.events|] == log.events
      && t.events[|log.events|].body.content == content && t.head.Some?
      && t.head.value.eventHash == t.events[|log.events|].eventHash
      && t.head.value.sequence == t.events[|log.events|].body.sequence
  {
  }

  // ---------------------------------------------------------------- what the head pins down

  /** Working back from equal last hashes, two linked sequences of the same length agree throughout. */
  lemma {:induction false} SameBackTo(hash: Hash, a: seq<Event>, b: seq<Event>, i: nat)
    requires CollisionFree(hash) && |a| == |b| && i < |a|
    requires forall k :: 0 <= k < |a| ==> Linked(hash, a, k) && Linked(hash, b, k)
    requires a[|a| - 1].eventHash == b[|b| - 1].eventHash
    ensures a[i] == b[i]
    decreases |a| - i
  {
    assert Linked(hash, a, i) && Linked(hash, b, i);
    if i < |a| - 1 {
      SameBackTo(hash, a, b, i + 1);
      assert Linked(hash, a, i + 1) && Linked(hash, b, i + 1);
    }
  }

  /** Two valid logs with the same head are the same log. */
  lemma HeadDeterminesLog(hash: Hash, a: Log, b: Log)
    requires CollisionFree(hash) && Valid(hash, a) && Valid(hash, b) && a.head == b.head
    ensures a == b
  {
    forall i | 0 <= i < |a.events| ensures a.events[i] == b.events[i] {
      SameBackTo(hash, a.events, b.events, i);
    }
  }

  /** Editing, deleting, truncating, inserting or reordering under an unchanged head is rejected. */
  lemma TamperingRejected(hash: Hash, log: Log, events: seq<Event>)
    requires CollisionFree(hash) && Valid(hash, log) && events != log.events
    ensures !Valid(hash, Log(events, log.head))
  {
    if Valid(hash, Log(events, log.head)) {
      HeadDeterminesLog(hash, log, Log(events, log.head));
    }
  }

  /** Dropping the head as well hides nothing unless the whole log goes with it. */
  lemma DroppedHead(hash: Hash, events: seq<Event>)
    ensures Valid(hash, Log(events, None)) <==> events == []
  {
  }

  // ---------------------------------------------------------------- where tampering is found

  /** What `verifySecurityAuditChain` answers; `brokenAt` counts from one. */
  datatype Verdict = Intact | Broken(brokenAt: nat)

  ghost predicate FirstBroken(hash: Hash, log: Log, at: nat) {
    && 1 <= at <= |log.events| + 1
    && (forall i :: 0 <= i < at - 1 ==> Linked(hash, log.events, i))
    && (if at <= |log.events| then !Linked(hash, log.events, at - 1) else !HeadFits(log))
  }

  lemma EditBreaksALink(hash: Hash, log: Log, k: nat, e: Event)
    requires CollisionFree(hash) && Valid(hash, log) && k < |log.events| && e != log.events[k]
    ensures
      var t := log.(events := log.events[k := e]);
      !Linked(hash, t.events, k) || if k + 1 < |t.events| then !Linked(hash, t.events, k + 1) else !HeadFits(t)
  {
    assert Linked(hash, log.events, k);
    assert k + 1 < |log.events| ==> Linked(hash, log.events, k + 1);
  }

  /** One replaced event is found at its own position or the next. */
  lemma EditLocated(hash: Hash, log: Log, k: nat, e: Event, at: nat)
    requires CollisionFree(hash) && Valid(hash, log) && k < |log.events| && e != log.events[k]
    requires FirstBroken(hash, log.(events := log.events[k := e]), at)
    ensures at == k + 1 || at == k + 2
  {
    var t := log.(events := log.events[k := e]);
    EditBreaksALink(hash, log, k, e);
    forall i | 0 <= i < k ensures Linked(hash, t.events, i) {
      assert Linked(hash, log.events, i);
      assert t.events[i] == log.events[i] && (i > 0 ==> t.events[i - 1] == log.events[i - 1]);
    }
  }

  /** The persisted log of one store. */
  class AuditLog {
    const hash: Hash
    var events: seq<Event>
    var head: Option<Head>

    function View(): Log
      reads this
    {
      Log(events, head)
    }

    constructor (hash: Hash, log: Log)
      ensures View() == log && this.hash == hash
    {
      this.hash := hash;
      events, head := log.events, log.head;
    }

    /** `verifySecurityAuditChain`. */
    method Verify() returns (verdict: Verdict)
      ensures verdict.Intact? <==> Valid(hash, View())
      ensures verdict.Broken? ==> FirstBroken(hash, View(), verdict.brokenAt)
    {
      var previous := Genesis;
      for i := 0 to |events|
        invariant previous == Before(events, i)
        invariant forall k :: 0 <= k < i ==> Linked(hash, events, k)
      {
        var body := events[i].body;
        if body.sequence != i + 1 || body.previousHash != previous || hash(body) != events[i].eventHash {
          assert !Linked(hash, events, i);
          return Broken(i + 1);
        }
        previous := events[i].eventHash;
      }
      if (|events| > 0 && head.None?)
         || (head.Some? && (head.value.sequence != |events| || head.value.eventHash != previous))
      {
        return Broken(|events| + 1);
      }
      return Intact;
    }

    /** An append is refused on a log that does not verify, and keeps one that does. */
    method AppendDecision(content: string) returns (appended: bool)
      modifies this
      ensures appended <==> Valid(hash, old(View()))
      ensures View() == if appended then Append(hash, old(View()), content) else old(View())
      ensures appended ==> Valid(hash, View())
    {
      var verdict := Verify();
      if verdict.Broken? { return false; }
      AppendValid(hash, View(), content);
      var sequence := if events == [] then 1 else events[|events| - 1].body.sequence + 1;
      var previous := if events == [] then Genesis else events[|events| - 1].eventHash;
      var body := Body(sequence, content, previous);
      events := events + [Event(body, hash(body))];
      head := Some(Head(sequence, hash(body)));
      return true;
    }
  }
}
