/**
 Optimistic transactions refine atomic ones. A process takes a snapshot of the ledger, works on it
 without a lock, and writes the result back only if the generation has not moved meanwhile.
 */
module Optimism {
  import opened Model
  import opened Authorization

  // Atomic transactions

  /** Expiry, persisted only when it changes something. */
  function Tidy(l: Ledger, now: int): Ledger {
    var expired := Expire(l, now);
    if expired == l then l else expired.(generation := l.generation + 1)
  }

  datatype Transacted = Transacted(ledger: Ledger, reply: Option<Reply>)

  function Performed(l: Ledger, call: Call): Transacted {
    match Act(l, call)
    case Failed => Transacted(l, None)
    case Done(next, reply) => Transacted(if next == l then l else next.(generation := l.generation + 1), Some(reply))
  }

  /** Under one lock: expiry is persisted, then the action, each advancing the generation if it changes anything. */
  function Transact(l: Ledger, now: int, call: Call): Transacted {
    Performed(Tidy(l, now), call)
  }

  /** The ledger, and the deletions whose native part is under way, by process. */
  datatype Authority = Authority(ledger: Ledger, deletions: map<nat, IdentityRef>)

  datatype AtomicEvent =
    | Transaction(now: int, call: Call)
    /** A change of host associations under the lock, with the generation advanced before and after it. */
    | Access(now: int, identity: IdentityRef, completes: bool)
    /** The durable fence before an identity is deleted. */
    | Fence(p: nat, now: int, target: IdentityRef)
    | FinishDeletion(p: nat, now: int)
    | DropDeletion(p: nat)

  function AccessStep(l: Ledger, now: int, identity: IdentityRef, completes: bool): Ledger {
    var tidy := Tidy(l, now);
    if !Available(tidy, identity) then tidy
    else tidy.(generation := tidy.generation + if completes then 2 else 1)
  }

  /** Fencing persists the expiry only together with the fence. */
  predicate CanFence(l: Ledger, now: int, target: IdentityRef) {
    !HasActiveGrant(Expire(l, now), target) && target !in l.deleted
  }

  function Finished(l: Ledger, target: IdentityRef): Ledger {
    var next := CompleteDeletion(l, target);
    if next == l then l else next.(generation := l.generation + 1)
  }

  function AtomicStep(a: Authority, e: AtomicEvent): Authority {
    match e
    case Transaction(now, call) => a.(ledger := Transact(a.ledger, now, call).ledger)
    case Access(now, identity, completes) => a.(ledger := AccessStep(a.ledger, now, identity, completes))
    case Fence(p, now, target) =>
      if !CanFence(a.ledger, now, target) || p in a.deletions then a
      else Authority(Fenced(Expire(a.ledger, now), target).(generation := a.ledger.generation + 1),
                     a.deletions[p := target])
    case FinishDeletion(p, now) =>
      if p !in a.deletions then a
      else Authority(Finished(Tidy(a.ledger, now), a.deletions[p]), a.deletions - {p})
    case DropDeletion(p) => a.(deletions := a.deletions - {p})
  }

  function AtomicRun(a: Authority, events: seq<AtomicEvent>): Authority {
    if events == [] then a else AtomicStep(AtomicRun(a, events[..|events| - 1]), events[|events| - 1])
  }

  lemma RunLast(a: Authority, events: seq<AtomicEvent>, last: AtomicEvent)
    ensures AtomicRun(a, events + [last]) == AtomicRun(AtomicRun(a, events), [last])
  {
    assert (events + [last])[..|events|] == events && [last][..0] == [];
  }

  lemma {:induction false} AtomicRunAppend(a: Authority, events: seq<AtomicEvent>, more: seq<AtomicEvent>)
    ensures AtomicRun(a, events + more) == AtomicRun(AtomicRun(a, events), more)
  {
    if more == [] {
      assert events + more == events;
    } else {
      var front, last := more[..|more| - 1], more[|more| - 1];
      AtomicRunAppend(a, events, front);
      assert more == front + [last];
      AppendOne(a, events, front, last);
    }
  }

  lemma AppendOne(a: Authority, events: seq<AtomicEvent>, front: seq<AtomicEvent>, last: AtomicEvent)
    requires AtomicRun(a, events + front) == AtomicRun(AtomicRun(a, events), front)
    ensures AtomicRun(a, events + (front + [last])) == AtomicRun(AtomicRun(a, events), front + [last])
  {
    assert events + (front + [last]) == events + front + [last];
    RunLast(a, events + front, last);
    RunLast(AtomicRun(a, events), front, last);
  }

  /** Every write advances the generation. */
  lemma WritesAdvance(a: Authority, e: AtomicEvent)
    ensures AtomicStep(a, e).ledger == a.ledger || AtomicStep(a, e).ledger.generation > a.ledger.generation
  {
  }

  // Processes working on snapshots

  datatype Processes = Processes(authority: Authority, snapshots: map<nat, Ledger>)

  datatype Event =
    /** Anything done under the lock; calls that read the host are not. */
    | Locked(event: AtomicEvent)
    | TakeSnapshot(p: nat, now: int)
    /** The end of one attempt: the action has run on the snapshot and tries to commit. */
    | CommitSnapshot(p: nat, now: int, call: Call, deadline: Option<int>)
    | Die(p: nat)

  /** What a commit attempt comes to. */
  datatype Attempt = Aborted | Conflict | TimedOut | Overdue | Committed(next: Ledger, reply: Reply)

  function CommitAttempt(current: Ledger, snapshot: Ledger, now: int, call: Call, deadline: Option<int>): Attempt {
    match Act(snapshot, call)
    case Failed => Aborted
    case Done(next, reply) =>
      if current.generation != snapshot.generation then Conflict
      else if deadline.Some? && deadline.value <= now then TimedOut
      else if Expire(current, now) != current then Overdue
      else Committed(if next == snapshot then current else next.(generation := snapshot.generation + 1), reply)
  }

  function CommitStep(c: Processes, p: nat, now: int, call: Call, deadline: Option<int>): Processes {
    if p !in c.snapshots || !Optimistic(call) then c
    else
      var ledger := c.authority.ledger;
      var done := c.(snapshots := c.snapshots - {p});
      match CommitAttempt(ledger, c.snapshots[p], now, call, deadline)
      case Overdue => done.(authority := c.authority.(ledger := Tidy(ledger, now)))
      case Committed(next, _) => done.(authority := c.authority.(ledger := next))
      case _ => done
  }

  predicate UnderLock(e: AtomicEvent) {
    e.Transaction? ==> !Optimistic(e.call)
  }

  function Step(c: Processes, e: Event): Processes {
    match e
    case Locked(event) => if UnderLock(event) then c.(authority := AtomicStep(c.authority, event)) else c
    case TakeSnapshot(p, now) =>
      var tidy := Tidy(c.authority.ledger, now);
      Processes(c.authority.(ledger := tidy), c.snapshots[p := tidy])
    case CommitSnapshot(p, now, call, deadline) => CommitStep(c, p, now, call, deadline)
    case Die(p) => Processes(AtomicStep(c.authority, DropDeletion(p)), c.snapshots - {p})
  }

  function Run(c: Processes, events: seq<Event>): Processes {
    if events == [] then c else Step(Run(c, events[..|events| - 1]), events[|events| - 1])
  }

  // The refinement

  /** A snapshot is never newer than the ledger, and of the same generation only if it is the same. */
  predicate Faithful(snapshot: Ledger, current: Ledger) {
    && snapshot.generation <= current.generation
    && (snapshot.generation == current.generation ==> snapshot == current)
  }

  predicate SnapshotsFaithful(c: Processes) {
    forall p :: p in c.snapshots ==> Faithful(c.snapshots[p], c.authority.ledger)
  }

  /** The atomic events a step stands for. */
  function Atoms(c: Processes, e: Event): seq<AtomicEvent> {
    match e
    case Locked(event) => if UnderLock(event) then [event] else []
    case TakeSnapshot(p, now) => [Transaction(now, Nothing)]
    case CommitSnapshot(p, now, call, deadline) =>
      if p !in c.snapshots || !Optimistic(call) then []
      else (match CommitAttempt(c.authority.ledger, c.snapshots[p], now, call, deadline)
        case Overdue => [Transaction(now, Nothing)]
        case Committed(_, _) => [Transaction(now, call)]
        case _ => [])
    case Die(p) => [DropDeletion(p)]
  }

  lemma RunOne(a: Authority, e: AtomicEvent)
    ensures AtomicRun(a, [e]) == AtomicStep(a, e)
  {
    assert [e][..0] == [];
  }

  lemma TidyAlone(l: Ledger, now: int)
    ensures Transact(l, now, Nothing) == Transacted(Tidy(l, now), Some(RNothing))
  {
  }

  /** A commit that goes through is the atomic transaction on the ledger current at that moment, with the same reply. */
  lemma CommitIsAtomic(c: Processes, p: nat, now: int, call: Call, deadline: Option<int>)
    requires p in c.snapshots && Faithful(c.snapshots[p], c.authority.ledger)
    requires CommitAttempt(c.authority.ledger, c.snapshots[p], now, call, deadline).Committed?
    ensures var attempt := CommitAttempt(c.authority.ledger, c.snapshots[p], now, call, deadline);
      Transact(c.authority.ledger, now, call) == Transacted(attempt.next, Some(attempt.reply))
  {
    assert Tidy(c.authority.ledger, now) == c.authority.ledger == c.snapshots[p];
  }

  lemma StepRefines(c: Processes, e: Event)
    requires SnapshotsFaithful(c)
    ensures Step(c, e).authority == AtomicRun(c.authority, Atoms(c, e))
    ensures SnapshotsFaithful(Step(c, e))
  {
    match e
    case Locked(event) =>
      RunOne(c.authority, event);
      WritesAdvance(c.authority, event);
    case TakeSnapshot(p, now) =>
      RunOne(c.authority, Transaction(now, Nothing));
      TidyAlone(c.authority.ledger, now);
      WritesAdvance(c.authority, Transaction(now, Nothing));
    case CommitSnapshot(p, now, call, deadline) => CommitRefines(c, p, now, call, deadline);
    case Die(p) => RunOne(c.authority, DropDeletion(p));
  }

  lemma CommitRefines(c: Processes, p: nat, now: int, call: Call, deadline: Option<int>)
    requires SnapshotsFaithful(c)
    ensures var e := CommitSnapshot(p, now, call, deadline);
      Step(c, e).authority == AtomicRun(c.authority, Atoms(c, e)) && SnapshotsFaithful(Step(c, e))
  {
    if p in c.snapshots && Optimistic(call) {
      var attempt := CommitAttempt(c.authority.ledger, c.snapshots[p], now, call, deadline);
      if attempt.Committed? {
        CommitIsAtomic(c, p, now, call, deadline);
        RunOne(c.authority, Transaction(now, call));
        WritesAdvance(c.authority, Transaction(now, call));
      } else if attempt.Overdue? {
        TidyAlone(c.authority.ledger, now);
        RunOne(c.authority, Transaction(now, Nothing));
        WritesAdvance(c.authority, Transaction(now, Nothing));
      }
    }
  }

  function AllAtoms(c: Processes, events: seq<Event>): seq<AtomicEvent> {
    if events == [] then []
    else
      var front := events[..|events| - 1];
      AllAtoms(c, front) + Atoms(Run(c, front), events[|events| - 1])
  }

  /**
   Optimistic refines atomic: under any interleaving of processes, the ledger of a run is the ledger of
   the run in which every successful snapshot transaction happens at once, after expiry, at its commit
   point.
   */
  lemma {:induction false} OptimisticRefinesAtomic(c: Processes, events: seq<Event>)
    requires SnapshotsFaithful(c)
    ensures Run(c, events).authority == AtomicRun(c.authority, AllAtoms(c, events))
    ensures SnapshotsFaithful(Run(c, events))
  {
    if events != [] {
      var front, last := events[..|events| - 1], events[|events| - 1];
      OptimisticRefinesAtomic(c, front);
      StepRefines(Run(c, front), last);
      AtomicRunAppend(c.authority, AllAtoms(c, front), Atoms(Run(c, front), last));
    }
  }
}
