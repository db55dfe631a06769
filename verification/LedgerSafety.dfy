/**
 Safety of the authorization ledger over whole runs, first for atomic transactions and then, through
 the refinement, for any interleaving of processes that work on snapshots.
 */
module LedgerSafety {
  import opened Model
  import opened Authorization
  import opened Optimism

  // How a ledger may follow another

  /**
   A grant keeps what it was given for. Only one that is active and once changes otherwise than by being
   revoked, and it never becomes active again.
   */
  predicate GrantFollows(g: Grant, next: Grant) {
    && next.id == g.id && next.identity == g.identity && next.mode == g.mode && next.consumer == g.consumer
    && (next.status == GActive ==> next == g)
    && (g.mode == Permanent || g.status != GActive ==> next == g || next.status == GRevoked)
    && (g.status == GRevoked ==> next == g)
  }

  /** An execution keeps everything but its status, which changes only when its first result is recorded. */
  predicate ExecutionFollows(x: Execution, next: Execution) {
    next == x.(status := next.status) && (x.status != Admitted ==> next == x)
  }

  ghost predicate Follows(l: Ledger, next: Ledger) {
    && (forall id :: id in l.grants ==> id in next.grants && GrantFollows(l.grants[id], next.grants[id]))
    && (forall id :: id in next.grants && id !in l.grants ==> Available(l, next.grants[id].identity))
    && (forall x :: x in l.executions ==>
          x in next.executions && ExecutionFollows(l.executions[x], next.executions[x]))
    && l.deleted <= next.deleted
    && (forall target :: target in l.deleting ==> target in next.deleting || target in next.deleted)
  }

  lemma FollowsTransitive(a: Ledger, b: Ledger, c: Ledger)
    requires Follows(a, b) && Follows(b, c)
    ensures Follows(a, c)
  {
    forall id | id in c.grants && id !in a.grants
      ensures Available(a, c.grants[id].identity)
    {
      if id in b.grants {
        assert GrantFollows(b.grants[id], c.grants[id]);
      }
    }
  }

  lemma ExpireFollows(l: Ledger, now: int)
    ensures Follows(l, Expire(l, now))
  {
  }

  /** A ledger that differs only in its requests and refusals. */
  predicate SameCore(l: Ledger, next: Ledger) {
    next == l.(requests := next.requests, suppressions := next.suppressions)
  }

  lemma NewRequestCore(l: Ledger, consumer: string, id: string, purpose: string, details: Details, expiresAt: int)
    ensures NewRequest(l, consumer, id, purpose, details, expiresAt).Done? ==>
      SameCore(l, NewRequest(l, consumer, id, purpose, details, expiresAt).ledger)
  {
  }

  predicate TouchesCore(call: Call) {
    call.ApproveGrant? || call.RevokeGrant? || call.AdmitExecution? || call.RecordResult? || call.Reconciliation?
  }

  lemma QuietCalls(l: Ledger, call: Call)
    requires !TouchesCore(call) && Act(l, call).Done?
    ensures SameCore(l, Act(l, call).ledger)
  {
    match call
    case AskCreate(consumer, id, purpose, details, expiresAt, _) =>
      NewRequestCore(l, consumer, id, purpose, details, expiresAt);
    case AskAccess(consumer, id, purpose, details, expiresAt, _) =>
      NewRequestCore(l, consumer, id, purpose, details, expiresAt);
    case Retry(id, _, newId, expiresAt, _) =>
      var r := l.requests[RequestPosition(l.requests, id)];
      var lifted := l.(suppressions := Unblocked(l.suppressions, r.consumer, r.details));
      NewRequestCore(lifted, r.consumer, newId, r.fingerprint.purpose, r.details, expiresAt);
    case _ =>
  }

  // Deletion

  /** A ledger in which identities were only fenced or deleted. */
  predicate OnlyDeletes(l: Ledger, next: Ledger) {
    && next == l.(requests := next.requests, deleted := next.deleted, deleting := next.deleting)
    && l.deleted <= next.deleted
    && forall target :: target in l.deleting ==> target in next.deleting || target in next.deleted
  }

  lemma {:induction false} TakeFencesDeletes(l: Ledger, fences: seq<IdentityRef>)
    ensures OnlyDeletes(l, TakeFences(l, fences)) && TakeFences(l, fences).deleted == l.deleted
  {
    if fences != [] {
      TakeFencesDeletes(l, fences[..|fences| - 1]);
    }
  }

  lemma CompleteDeletes(l: Ledger, target: IdentityRef)
    ensures OnlyDeletes(l, CompleteDeletion(l, target))
  {
  }

  /** Reconciliation deletes only identities without active grants. */
  lemma {:induction false} ReconcileEachDeletes(l: Ledger, listed: seq<IdentityRef>, absent: set<IdentityRef>)
    ensures OnlyDeletes(l, ReconcileEach(l, listed, absent))
    ensures forall target :: target in ReconcileEach(l, listed, absent).deleted ==>
      target in l.deleted || !HasActiveGrant(l, target)
  {
    if listed != [] {
      var front, target := listed[..|listed| - 1], listed[|listed| - 1];
      ReconcileEachDeletes(l, front, absent);
      CompleteDeletes(ReconcileEach(l, front, absent), target);
    }
  }

  lemma ReconciliationDeletes(l: Ledger, fences: seq<IdentityRef>, absent: set<IdentityRef>)
    ensures OnlyDeletes(l, ReconcileDeletions(l, fences, absent))
    ensures forall target :: target in ReconcileDeletions(l, fences, absent).deleted ==>
      target in l.deleted || !HasActiveGrant(l, target)
  {
    TakeFencesDeletes(l, fences);
    var fenced := TakeFences(l, fences);
    ReconcileEachDeletes(fenced, fenced.deleting, absent);
  }

  // The invariant

  /** Grants and executions carry their own ids, and every execution was admitted under a known grant. */
  ghost predicate Referenced(l: Ledger) {
    && (forall id :: id in l.grants ==> l.grants[id].id == id)
    && (forall x :: x in l.executions ==> l.executions[x].id == x && l.executions[x].grant in l.grants)
  }

  /** A once grant that is active has no execution, and any once grant has at most one. */
  ghost predicate OnceOnly(l: Ledger)
    requires Referenced(l)
  {
    && (forall x :: x in l.executions && l.grants[l.executions[x].grant].mode == Once ==>
          l.grants[l.executions[x].grant].status != GActive)
    && (forall x, y :: x in l.executions && y in l.executions && l.executions[x].grant == l.executions[y].grant ==>
          x == y || l.grants[l.executions[x].grant].mode == Permanent)
  }

  /** Deleted identities, and those whose deletion is under way, have no active grant. */
  ghost predicate FenceHolds(a: Authority) {
    && (forall target :: target in a.ledger.deleted ==> !HasActiveGrant(a.ledger, target))
    && (forall p :: p in a.deletions ==>
          && (a.deletions[p] in a.ledger.deleting || a.deletions[p] in a.ledger.deleted)
          && !HasActiveGrant(a.ledger, a.deletions[p]))
  }

  ghost predicate LedgerInv(l: Ledger) {
    Referenced(l) && OnceOnly(l)
  }

  ghost predicate Inv(a: Authority) {
    LedgerInv(a.ledger) && FenceHolds(a)
  }

  // Active grants can only be added where the identity is available

  lemma NoNewActiveGrant(l: Ledger, next: Ledger, target: IdentityRef)
    requires Follows(l, next) && !Available(l, target) && !HasActiveGrant(l, target)
    ensures !HasActiveGrant(next, target)
  {
    forall id | id in next.grants && next.grants[id].identity == target
      ensures next.grants[id].status != GActive
    {
      if id in l.grants {
        assert GrantFollows(l.grants[id], next.grants[id]);
      }
    }
  }

  // The actions

  lemma SameCoreKeeps(l: Ledger, next: Ledger)
    requires SameCore(l, next)
    ensures Follows(l, next) && next.deleted == l.deleted
    ensures LedgerInv(l) ==> LedgerInv(next)
  {
  }

  lemma ApproveKeeps(l: Ledger, call: Call)
    requires LedgerInv(l) && call.ApproveGrant? && Act(l, call).Done?
    ensures LedgerInv(Act(l, call).ledger) && Follows(l, Act(l, call).ledger)
    ensures Act(l, call).ledger.deleted == l.deleted
  {
  }

  /** The ledger with an execution admitted under a grant, which a once grant is used up by. */
  predicate AdmitsInto(l: Ledger, grant: string, x: Execution, next: Ledger) {
    && grant in l.grants && l.grants[grant].status == GActive && x.id !in l.executions && x.grant == grant
    && next == l.(executions := l.executions[x.id := x], grants := next.grants)
    && var g := l.grants[grant];
    && next.grants == if g.mode == Permanent then l.grants
                      else l.grants[grant := g.(status := GConsumed, version := g.version + 1, execution := Some(x.id))]
  }

  lemma AdmitIs(l: Ledger, call: Call)
    requires Referenced(l) && call.AdmitExecution? && Act(l, call).Done?
    ensures Act(l, call).reply.RExecution?
    ensures AdmitsInto(l, call.lease.grant, Act(l, call).reply.execution, Act(l, call).ledger)
  {
  }

  lemma AdmittedReferenced(l: Ledger, grant: string, x: Execution, next: Ledger)
    requires LedgerInv(l) && AdmitsInto(l, grant, x, next)
    ensures LedgerInv(next)
  {
  }

  lemma AdmittedFollows(l: Ledger, grant: string, x: Execution, next: Ledger)
    requires LedgerInv(l) && AdmitsInto(l, grant, x, next)
    ensures Follows(l, next)
  {
  }

  lemma AdmitKeeps(l: Ledger, call: Call)
    requires LedgerInv(l) && call.AdmitExecution? && Act(l, call).Done?
    ensures LedgerInv(Act(l, call).ledger) && Follows(l, Act(l, call).ledger)
    ensures Act(l, call).ledger.deleted == l.deleted
  {
    AdmitIs(l, call);
    AdmittedReferenced(l, call.lease.grant, Act(l, call).reply.execution, Act(l, call).ledger);
    AdmittedFollows(l, call.lease.grant, Act(l, call).reply.execution, Act(l, call).ledger);
  }

  lemma RevokeKeeps(l: Ledger, call: Call)
    requires LedgerInv(l) && call.RevokeGrant? && Act(l, call).Done?
    ensures LedgerInv(Act(l, call).ledger) && Follows(l, Act(l, call).ledger)
    ensures Act(l, call).ledger.deleted == l.deleted
  {
  }

  /** The ledger with nothing recorded, or with the result of an execution that had none. */
  predicate RecordsInto(l: Ledger, execution: string, next: Ledger) {
    || next == l
    || (&& execution in l.executions && l.executions[execution].status == Admitted
        && execution in next.executions
        && ExecutionFollows(l.executions[execution], next.executions[execution])
        && next == l.(executions := l.executions[execution := next.executions[execution]]))
  }

  lemma RecordIs(l: Ledger, call: Call)
    requires call.RecordResult? && Act(l, call).Done?
    ensures RecordsInto(l, call.execution, Act(l, call).ledger)
  {
  }

  lemma RecordedReferenced(l: Ledger, execution: string, next: Ledger)
    requires LedgerInv(l) && RecordsInto(l, execution, next)
    ensures LedgerInv(next)
  {
  }

  lemma RecordedFollows(l: Ledger, execution: string, next: Ledger)
    requires RecordsInto(l, execution, next)
    ensures Follows(l, next) && next.deleted == l.deleted
  {
  }

  lemma RecordKeeps(l: Ledger, call: Call)
    requires LedgerInv(l) && call.RecordResult? && Act(l, call).Done?
    ensures LedgerInv(Act(l, call).ledger) && Follows(l, Act(l, call).ledger)
    ensures Act(l, call).ledger.deleted == l.deleted
  {
    RecordIs(l, call);
    RecordedReferenced(l, call.execution, Act(l, call).ledger);
    RecordedFollows(l, call.execution, Act(l, call).ledger);
  }

  lemma OnlyDeletesKeeps(l: Ledger, next: Ledger)
    requires OnlyDeletes(l, next)
    ensures Follows(l, next) && (LedgerInv(l) ==> LedgerInv(next))
  {
  }

  /** Every action keeps the invariant, and deletes only identities without active grants. */
  ghost predicate Keeps(l: Ledger, next: Ledger) {
    && LedgerInv(next) && Follows(l, next)
    && forall target :: target in next.deleted ==> target in l.deleted || !HasActiveGrant(l, target)
  }

  lemma ActKeeps(l: Ledger, call: Call, next: Ledger)
    requires LedgerInv(l) && Act(l, call).Done? && Act(l, call).ledger == next
    ensures Keeps(l, next)
  {
    if call.ApproveGrant? {
      ApproveKeeps(l, call);
    } else if call.AdmitExecution? {
      AdmitKeeps(l, call);
    } else if call.RevokeGrant? {
      RevokeKeeps(l, call);
    } else if call.RecordResult? {
      RecordKeeps(l, call);
    } else if call.Reconciliation? {
      ReconciliationDeletes(l, call.fences, call.absent);
      OnlyDeletesKeeps(l, next);
    } else {
      QuietCalls(l, call);
      SameCoreKeeps(l, next);
    }
  }

  // Atomic steps

  predicate SameButGeneration(l: Ledger, next: Ledger) {
    next == l.(generation := next.generation)
  }

  lemma GenerationKeeps(l: Ledger, next: Ledger)
    requires SameButGeneration(l, next)
    ensures Follows(l, next) && (LedgerInv(l) ==> Keeps(l, next))
    ensures forall target :: HasActiveGrant(next, target) <==> HasActiveGrant(l, target)
  {
  }

  lemma ExpireKeeps(l: Ledger, now: int)
    requires LedgerInv(l)
    ensures Keeps(l, Expire(l, now)) && Expire(l, now).deleted == l.deleted
  {
    ExpireFollows(l, now);
  }

  lemma TidyKeeps(l: Ledger, now: int)
    requires LedgerInv(l)
    ensures Keeps(l, Tidy(l, now)) && Tidy(l, now).deleted == l.deleted
    ensures forall target :: HasActiveGrant(Tidy(l, now), target) ==> HasActiveGrant(l, target)
  {
    ExpireKeeps(l, now);
    var tidy := Tidy(l, now);
    forall target | HasActiveGrant(tidy, target)
      ensures HasActiveGrant(l, target)
    {
      var id :| id in tidy.grants && tidy.grants[id].identity == target && tidy.grants[id].status == GActive;
      assert l.grants[id] == tidy.grants[id];
    }
    if tidy != l {
      GenerationKeeps(Expire(l, now), tidy);
    }
  }

  /** A transaction keeps the ledger invariant; what it deletes had no active grant once expiry was applied. */
  lemma TransactKeeps(l: Ledger, now: int, call: Call)
    requires LedgerInv(l)
    ensures var next := Transact(l, now, call).ledger;
      && LedgerInv(next) && Follows(l, next) && Follows(Tidy(l, now), next)
      && forall target :: target in next.deleted ==> target in l.deleted || !HasActiveGrant(Tidy(l, now), target)
  {
    TidyKeeps(l, now);
    var tidy := Tidy(l, now);
    var next := Transact(l, now, call).ledger;
    if next != tidy {
      var acted := Act(tidy, call).ledger;
      ActKeeps(tidy, call, acted);
      GenerationKeeps(acted, next);
      FollowsTransitive(tidy, acted, next);
    }
    FollowsTransitive(l, tidy, next);
  }

  lemma ReconciledWithoutGrants(l: Ledger, now: int, call: Call, target: IdentityRef)
    requires LedgerInv(l) && (target in l.deleted ==> !HasActiveGrant(l, target))
    requires target in Transact(l, now, call).ledger.deleted
    ensures !HasActiveGrant(Transact(l, now, call).ledger, target)
  {
    TidyKeeps(l, now);
    TransactKeeps(l, now, call);
    var tidy, next := Tidy(l, now), Transact(l, now, call).ledger;
    assert !HasActiveGrant(tidy, target);
    if target in l.deleted {
      NoNewActiveGrant(tidy, next, target);
    } else {
      DeletingGrantsNothing(tidy, call, target);
    }
  }

  /** The action that deletes an identity grants nothing. */
  lemma DeletingGrantsNothing(l: Ledger, call: Call, target: IdentityRef)
    requires LedgerInv(l) && target !in l.deleted && target in Performed(l, call).ledger.deleted
    requires !HasActiveGrant(l, target)
    ensures !HasActiveGrant(Performed(l, call).ledger, target)
  {
    if call.Reconciliation? {
      ReconciliationDeletes(l, call.fences, call.absent);
    } else {
      OnlyReconciliationDeletes(l, call);
    }
  }

  lemma OnlyReconciliationDeletes(l: Ledger, call: Call)
    requires LedgerInv(l) && !call.Reconciliation?
    ensures Performed(l, call).ledger.deleted == l.deleted
  {
    if Act(l, call).Done? {
      if call.ApproveGrant? {
        ApproveKeeps(l, call);
      } else if call.AdmitExecution? {
        AdmitKeeps(l, call);
      } else if call.RevokeGrant? {
        RevokeKeeps(l, call);
      } else if call.RecordResult? {
        RecordKeeps(l, call);
      } else {
        QuietCalls(l, call);
      }
    }
  }

  lemma TransactionKeeps(a: Authority, e: AtomicEvent)
    requires Inv(a) && e.Transaction?
    ensures Inv(AtomicStep(a, e)) && Follows(a.ledger, AtomicStep(a, e).ledger)
  {
    TransactKeeps(a.ledger, e.now, e.call);
    var next := Transact(a.ledger, e.now, e.call).ledger;
    forall target | target in next.deleted
      ensures !HasActiveGrant(next, target)
    {
      ReconciledWithoutGrants(a.ledger, e.now, e.call, target);
    }
    forall p | p in a.deletions
      ensures !HasActiveGrant(next, a.deletions[p])
    {
      NoNewActiveGrant(a.ledger, next, a.deletions[p]);
    }
  }

  lemma AccessKeeps(a: Authority, e: AtomicEvent)
    requires Inv(a) && e.Access?
    ensures Inv(AtomicStep(a, e)) && Follows(a.ledger, AtomicStep(a, e).ledger)
  {
    TidyKeeps(a.ledger, e.now);
    var tidy, next := Tidy(a.ledger, e.now), AtomicStep(a, e).ledger;
    GenerationKeeps(tidy, next);
    FollowsTransitive(a.ledger, tidy, next);
  }

  lemma FenceKeeps(a: Authority, e: AtomicEvent)
    requires Inv(a) && e.Fence?
    ensures Inv(AtomicStep(a, e)) && Follows(a.ledger, AtomicStep(a, e).ledger)
  {
    if CanFence(a.ledger, e.now, e.target) && e.p !in a.deletions {
      ExpireKeeps(a.ledger, e.now);
      var expired := Expire(a.ledger, e.now);
      var fenced := Fenced(expired, e.target);
      var next := AtomicStep(a, e).ledger;
      OnlyDeletesKeeps(expired, fenced);
      GenerationKeeps(fenced, next);
      FollowsTransitive(expired, fenced, next);
      FollowsTransitive(a.ledger, expired, next);
      FencedGrantsSame(a, e);
    }
  }

  lemma FencedGrantsSame(a: Authority, e: AtomicEvent)
    requires Inv(a) && e.Fence? && CanFence(a.ledger, e.now, e.target) && e.p !in a.deletions
    ensures FenceHolds(AtomicStep(a, e))
  {
    var expired, end := Expire(a.ledger, e.now), AtomicStep(a, e);
    assert end.ledger.grants == expired.grants;
    ExpireFollows(a.ledger, e.now);
    assert !HasActiveGrant(end.ledger, e.target);
    forall target | !HasActiveGrant(a.ledger, target)
      ensures !HasActiveGrant(end.ledger, target)
    {
    }
  }

  lemma FinishKeeps(a: Authority, e: AtomicEvent)
    requires Inv(a) && e.FinishDeletion?
    ensures Inv(AtomicStep(a, e)) && Follows(a.ledger, AtomicStep(a, e).ledger)
  {
    if e.p in a.deletions {
      var target := a.deletions[e.p];
      TidyKeeps(a.ledger, e.now);
      var tidy := Tidy(a.ledger, e.now);
      var completed := CompleteDeletion(tidy, target);
      CompleteDeletes(tidy, target);
      OnlyDeletesKeeps(tidy, completed);
      var next := AtomicStep(a, e).ledger;
      GenerationKeeps(completed, next);
      FollowsTransitive(tidy, completed, next);
      FollowsTransitive(a.ledger, tidy, next);
      forall other | !HasActiveGrant(a.ledger, other)
        ensures !HasActiveGrant(next, other)
      {
        assert next.grants == tidy.grants;
      }
    }
  }

  /** Every atomic step keeps the invariant. */
  lemma AtomicStepKeeps(a: Authority, e: AtomicEvent)
    requires Inv(a)
    ensures Inv(AtomicStep(a, e)) && Follows(a.ledger, AtomicStep(a, e).ledger)
  {
    match e
    case Transaction(_, _) => TransactionKeeps(a, e);
    case Access(_, _, _) => AccessKeeps(a, e);
    case Fence(_, _, _) => FenceKeeps(a, e);
    case FinishDeletion(_, _) => FinishKeeps(a, e);
    case DropDeletion(_) =>
  }

  lemma {:induction false} AtomicRunKeeps(a: Authority, events: seq<AtomicEvent>)
    requires Inv(a)
    ensures Inv(AtomicRun(a, events)) && Follows(a.ledger, AtomicRun(a, events).ledger)
  {
    if events != [] {
      var front := events[..|events| - 1];
      AtomicRunKeeps(a, front);
      AtomicStepKeeps(AtomicRun(a, front), events[|events| - 1]);
      FollowsTransitive(a.ledger, AtomicRun(a, front).ledger, AtomicRun(a, events).ledger);
    }
  }

  // Any interleaving of processes

  ghost predicate Sound(c: Processes) {
    Inv(c.authority) && SnapshotsFaithful(c)
  }

  function Start(): Processes {
    Processes(Authority(Ledger(0, [], map[], map[], {}, [], []), map[]), map[])
  }

  /** Every state of every interleaving is sound, and later ledgers follow earlier ones. */
  lemma InterleavingKeeps(c: Processes, events: seq<Event>)
    requires Sound(c)
    ensures Sound(Run(c, events)) && Follows(c.authority.ledger, Run(c, events).authority.ledger)
  {
    OptimisticRefinesAtomic(c, events);
    AtomicRunKeeps(c.authority, AllAtoms(c, events));
  }

  /** In particular every state of every interleaving from an empty ledger. */
  lemma EveryLedgerIsSound(events: seq<Event>)
    ensures Sound(Run(Start(), events))
  {
    InterleavingKeeps(Start(), events);
  }

  lemma RunSplits(c: Processes, events: seq<Event>)
    requires Sound(c) && events != []
    ensures Sound(Run(c, events[..|events| - 1]))
    ensures Follows(Run(c, events[..|events| - 1]).authority.ledger, Run(c, events).authority.ledger)
  {
    var front, last := events[..|events| - 1], events[|events| - 1];
    InterleavingKeeps(c, front);
    StepRefines(Run(c, front), last);
    AtomicRunKeeps(Run(c, front).authority, Atoms(Run(c, front), last));
  }

  /** The process commits the call on its snapshot. */
  predicate Commits(c: Processes, e: Event, call: Call) {
    && e.CommitSnapshot? && e.call == call && e.p in c.snapshots && Optimistic(call)
    && CommitAttempt(c.authority.ledger, c.snapshots[e.p], e.now, call, e.deadline).Committed?
  }

  /** What commits was true of the current ledger. */
  lemma CommitsOnCurrent(c: Processes, e: Event, call: Call)
    requires SnapshotsFaithful(c) && Commits(c, e, call)
    ensures var l := c.authority.ledger;
      && Act(l, call).Done?
      && Step(c, e).authority.ledger == Performed(l, call).ledger
      && Expire(l, e.now) == l && (e.deadline.Some? ==> e.now < e.deadline.value)
  {
  }

  // Executions

  predicate AdmitsUnder(c: Processes, e: Event, grant: string) {
    e.CommitSnapshot? && Commits(c, e, e.call) && e.call.AdmitExecution? && e.call.lease.grant == grant
  }

  predicate AdmitsAs(c: Processes, e: Event, execution: string) {
    e.CommitSnapshot? && Commits(c, e, e.call) && e.call.AdmitExecution? && e.call.execution == execution
  }

  function AdmissionsUnder(c: Processes, events: seq<Event>, grant: string): nat {
    if events == [] then 0
    else
      var front := events[..|events| - 1];
      AdmissionsUnder(c, front, grant) + if AdmitsUnder(Run(c, front), events[|events| - 1], grant) then 1 else 0
  }

  function AdmissionsAs(c: Processes, events: seq<Event>, execution: string): nat {
    if events == [] then 0
    else
      var front := events[..|events| - 1];
      AdmissionsAs(c, front, execution) + if AdmitsAs(Run(c, front), events[|events| - 1], execution) then 1 else 0
  }

  /** Some execution was admitted under the grant. */
  ghost predicate Used(l: Ledger, grant: string) {
    exists x :: x in l.executions && l.executions[x].grant == grant
  }

  lemma UsedStays(l: Ledger, next: Ledger, grant: string)
    requires Follows(l, next) && Used(l, grant)
    ensures Used(next, grant)
  {
    var x :| x in l.executions && l.executions[x].grant == grant;
    assert ExecutionFollows(l.executions[x], next.executions[x]);
  }

  lemma AdmissionUses(c: Processes, e: Event, grant: string)
    requires Sound(c) && AdmitsUnder(c, e, grant)
    ensures Used(Step(c, e).authority.ledger, grant) && e.call.execution in Step(c, e).authority.ledger.executions
    ensures grant in c.authority.ledger.grants && c.authority.ledger.grants[grant].status == GActive
    ensures e.call.execution !in c.authority.ledger.executions
  {
    CommitsOnCurrent(c, e, e.call);
    var l, next := c.authority.ledger, Step(c, e).authority.ledger;
    assert next.executions[e.call.execution].grant == grant;
  }

  /** A once grant that was used is not active. */
  lemma UsedOnceIsSpent(l: Ledger, grant: string)
    requires LedgerInv(l) && Used(l, grant) && grant in l.grants && l.grants[grant].mode == Once
    ensures l.grants[grant].status != GActive
  {
  }

  /** A once grant admits at most one execution, in any interleaving. */
  lemma {:induction false} OnceAdmitsOnce(c: Processes, events: seq<Event>, grant: string)
    requires Sound(c) && grant in Run(c, events).authority.ledger.grants
    requires Run(c, events).authority.ledger.grants[grant].mode == Once
    ensures AdmissionsUnder(c, events, grant) <= 1
    ensures AdmissionsUnder(c, events, grant) == 1 ==> Used(Run(c, events).authority.ledger, grant)
  {
    if events != [] {
      var front, last := events[..|events| - 1], events[|events| - 1];
      RunSplits(c, events);
      var before := Run(c, front).authority.ledger;
      if grant in before.grants {
        assert GrantFollows(before.grants[grant], Run(c, events).authority.ledger.grants[grant]);
        OnceAdmitsOnce(c, front, grant);
        if AdmissionsUnder(c, front, grant) == 1 {
          UsedOnceIsSpent(before, grant);
          UsedStays(before, Run(c, events).authority.ledger, grant);
        }
        if AdmitsUnder(Run(c, front), last, grant) {
          AdmissionUses(Run(c, front), last, grant);
        }
      } else {
        NoAdmissionBeforeGrant(c, front, grant);
        if AdmitsUnder(Run(c, front), last, grant) {
          AdmissionUses(Run(c, front), last, grant);
        }
      }
    }
  }

  lemma {:induction false} NoAdmissionBeforeGrant(c: Processes, events: seq<Event>, grant: string)
    requires Sound(c) && grant !in Run(c, events).authority.ledger.grants
    ensures AdmissionsUnder(c, events, grant) == 0
  {
    if events != [] {
      var front := events[..|events| - 1];
      RunSplits(c, events);
      NoAdmissionBeforeGrant(c, front, grant);
      if AdmitsUnder(Run(c, front), events[|events| - 1], grant) {
        AdmissionUses(Run(c, front), events[|events| - 1], grant);
      }
    }
  }

  /** An execution id is admitted at most once, whatever the grant. */
  lemma {:induction false} ExecutionIdsAreUnique(c: Processes, events: seq<Event>, execution: string)
    requires Sound(c)
    ensures AdmissionsAs(c, events, execution) <= 1
    ensures AdmissionsAs(c, events, execution) == 1 ==> execution in Run(c, events).authority.ledger.executions
  {
    if events != [] {
      var front, last := events[..|events| - 1], events[|events| - 1];
      RunSplits(c, events);
      ExecutionIdsAreUnique(c, front, execution);
      if AdmitsAs(Run(c, front), last, execution) {
        AdmissionUses(Run(c, front), last, last.call.lease.grant);
      }
    }
  }

  // From a grant to an execution

  /**
   The lease an open grant yielded, after any interleaving, admits an operation exactly when the grant is
   still active, its identity available, the lease in time, the operation permitted then and now, and
   the execution id new.
   */
  lemma OpenedLeaseAdmitsIff(c: Processes, events: seq<Event>, consumer: string, grant: string, until: int, host: Host,
                             lease: Lease, operation: Operation, execution: string, now: int, later: Host)
    requires Sound(c)
    requires Open(c.authority.ledger, consumer, grant, until, host) == Done(c.authority.ledger, RLease(lease))
    ensures grant in c.authority.ledger.grants && grant in Run(c, events).authority.ledger.grants
    ensures var l, g := Run(c, events).authority.ledger, c.authority.ledger.grants[grant];
      Admit(l, consumer, lease, operation, execution, now, later).Done?
      <==> l.grants[grant].status == GActive && execution !in l.executions && now < lease.expiresAt
           && Available(l, g.identity) && HostPermits(g, later, operation)
           && (g.mode == Once ==> g.operation.Some? && g.operation.value.fingerprint == operation.fingerprint)
  {
    InterleavingKeeps(c, events);
    var l := Run(c, events).authority.ledger;
    assert GrantFollows(c.authority.ledger.grants[grant], l.grants[grant]);
  }

  /** The host still has the policy the grant was given under, and it and the grant permit the operation. */
  predicate HostPermits(g: Grant, host: Host, operation: Operation) {
    && host.callerValid && host.policy.Some? && host.policy.value.version == g.snapshot.version
    && Permits(g.snapshot, operation) && Permits(host.policy.value, operation)
  }

  lemma AdmittedState(l: Ledger, call: Call, next: Ledger)
    requires LedgerInv(l) && call.AdmitExecution? && Act(l, call).Done? && SameButGeneration(Act(l, call).ledger, next)
    ensures call.lease.grant in l.grants && call.lease.grant in next.grants && call.execution in next.executions
    ensures var g, h, x := l.grants[call.lease.grant], next.grants[call.lease.grant], next.executions[call.execution];
      && x == Execution(call.execution, call.lease.grant, g.consumer, call.operation, g.version, Admitted)
      && g.consumer == call.consumer == call.lease.consumer && call.lease.identity == g.identity
      && call.lease.grantVersion == g.version && Permits(g.snapshot, call.operation)
      && g.status == GActive
      && h == if g.mode == Permanent then g
              else g.(status := GConsumed, version := g.version + 1, execution := Some(call.execution))
  {
  }

  /** When an admitted execution is active, in terms of the grant and the execution as they were after the admission. */
  lemma ActiveIff(l: Ledger, call: Call, g: Grant, x: Execution, now: int, host: Host)
    requires call.AdmitExecution? && call.lease.grant in l.grants && call.execution in l.executions
    requires x == Execution(call.execution, call.lease.grant, g.consumer, call.operation, call.lease.grantVersion,
                            Admitted)
    requires ExecutionFollows(x, l.executions[call.execution]) && GrantFollows(g, l.grants[call.lease.grant])
    requires g.consumer == call.consumer == call.lease.consumer && call.lease.identity == g.identity
    requires Permits(g.snapshot, call.operation)
    requires g.mode == Permanent ==> g.status == GActive && g.version == call.lease.grantVersion
    requires g.mode == Once ==>
      g.status == GConsumed && g.version == call.lease.grantVersion + 1 && g.execution == Some(call.execution)
    ensures AssertActive(l, call.consumer, call.lease, call.execution, now, host).Done?
      <==> l.executions[call.execution].status == Admitted && l.grants[call.lease.grant].status != GRevoked
           && now < call.lease.expiresAt && Available(l, g.identity) && HostPermits(g, host, call.operation)
  {
  }

  /**
   An admitted execution, after any interleaving, is active under its lease exactly until a result is
   recorded, the grant is revoked, the identity is being deleted, the lease expires or the host stops
   permitting the operation.
   */
  lemma AdmittedActiveIff(c: Processes, e: Event, events: seq<Event>, now: int, host: Host)
    requires Sound(c) && e.CommitSnapshot? && e.call.AdmitExecution? && Commits(c, e, e.call)
    ensures var l := Run(Step(c, e), events).authority.ledger;
      && e.call.lease.grant in c.authority.ledger.grants && e.call.lease.grant in l.grants
      && e.call.execution in l.executions
      && var g := c.authority.ledger.grants[e.call.lease.grant];
      (AssertActive(l, e.call.consumer, e.call.lease, e.call.execution, now, host).Done?
      <==> l.executions[e.call.execution].status == Admitted && l.grants[e.call.lease.grant].status != GRevoked
           && now < e.call.lease.expiresAt && Available(l, g.identity) && HostPermits(g, host, e.call.operation))
  {
    var call := e.call;
    CommitsOnCurrent(c, e, call);
    StepSound(c, e);
    InterleavingKeeps(Step(c, e), events);
    var next, l := Step(c, e).authority.ledger, Run(Step(c, e), events).authority.ledger;
    AdmittedState(c.authority.ledger, call, next);
    ActiveIff(l, call, next.grants[call.lease.grant], next.executions[call.execution], now, host);
  }

  lemma StepSound(c: Processes, e: Event)
    requires Sound(c)
    ensures Sound(Step(c, e))
  {
    assert [e][..0] == [];
    assert Run(c, []) == c && Run(c, [e]) == Step(c, e);
    InterleavingKeeps(c, [e]);
  }

  // Recorded results

  /**
   A recorded result stands: after any interleaving the execution is the same, no assertion that it is
   active and no second admission of its id commits, even from an older snapshot, and recording it
   again succeeds only with the same result and changes nothing.
   */
  lemma ResultStands(c: Processes, events: seq<Event>, e: Event, execution: string, consumer: string,
                     status: ExecutionStatus)
    requires Sound(c) && execution in c.authority.ledger.executions
    requires c.authority.ledger.executions[execution].status != Admitted
    ensures execution in Run(c, events).authority.ledger.executions
    ensures Run(c, events).authority.ledger.executions[execution] == c.authority.ledger.executions[execution]
    ensures e.CommitSnapshot? && UsesExecution(e.call, execution) ==> !Commits(Run(c, events), e, e.call)
    ensures Settled(Run(c, events).authority.ledger, consumer, execution, status)
  {
    InterleavingKeeps(c, events);
    var later := Run(c, events);
    assert ExecutionFollows(c.authority.ledger.executions[execution], later.authority.ledger.executions[execution]);
    if e.CommitSnapshot? && UsesExecution(e.call, execution) {
      SettledFails(later.authority.ledger, e.call, execution);
      if Commits(later, e, e.call) {
        CommitsOnCurrent(later, e, e.call);
      }
    }
  }

  /** The call asserts that the execution is active, or admits its id. */
  predicate UsesExecution(call: Call, execution: string) {
    (call.AssertExecution? || call.AdmitExecution?) && call.execution == execution
  }

  /** Recording a result succeeds only with the one that is there, and changes nothing. */
  predicate Settled(l: Ledger, consumer: string, execution: string, status: ExecutionStatus) {
    var recorded := RecordExecution(l, consumer, execution, status);
    execution in l.executions
    && (recorded.Done? ==> recorded.ledger == l && status == l.executions[execution].status)
  }

  lemma SettledFails(l: Ledger, call: Call, execution: string)
    requires execution in l.executions && l.executions[execution].status != Admitted && UsesExecution(call, execution)
    ensures Act(l, call).Failed?
  {
  }

  // Revocation

  /** The call uses the grant. */
  predicate UsesGrant(call: Call, grant: string) {
    || (call.OpenGrant? && call.grant == grant)
    || (call.AdmitExecution? && call.lease.grant == grant)
    || (call.AssertExecution? && call.lease.grant == grant)
  }

  lemma RevokedOpens(l: Ledger, consumer: string, grant: string, until: int, host: Host)
    requires grant in l.grants && l.grants[grant].status == GRevoked
    ensures Open(l, consumer, grant, until, host).Failed?
  {
  }

  lemma RevokedAdmits(l: Ledger, consumer: string, lease: Lease, operation: Operation, execution: string, now: int,
                      host: Host)
    requires lease.grant in l.grants && l.grants[lease.grant].status == GRevoked
    ensures Admit(l, consumer, lease, operation, execution, now, host).Failed?
  {
  }

  lemma RevokedAsserts(l: Ledger, consumer: string, lease: Lease, execution: string, now: int, host: Host)
    requires lease.grant in l.grants && l.grants[lease.grant].status == GRevoked
    ensures AssertActive(l, consumer, lease, execution, now, host).Failed?
  {
  }

  lemma RevokedFails(l: Ledger, call: Call, grant: string)
    requires grant in l.grants && l.grants[grant].status == GRevoked && UsesGrant(call, grant)
    ensures Act(l, call).Failed?
  {
    match call
    case OpenGrant(consumer, _, until, host) => RevokedOpens(l, consumer, grant, until, host);
    case AdmitExecution(consumer, lease, operation, execution, now, host) =>
      RevokedAdmits(l, consumer, lease, operation, execution, now, host);
    case AssertExecution(consumer, lease, execution, now, host) =>
      RevokedAsserts(l, consumer, lease, execution, now, host);
  }

  /** Once a revocation is in the ledger, nothing that uses the grant commits any more, even from an older snapshot. */
  lemma RevokedForGood(c: Processes, events: seq<Event>, e: Event, grant: string)
    requires Sound(c) && grant in c.authority.ledger.grants && c.authority.ledger.grants[grant].status == GRevoked
    requires e.CommitSnapshot? && UsesGrant(e.call, grant)
    ensures !Commits(Run(c, events), e, e.call)
    ensures grant in Run(c, events).authority.ledger.grants
    ensures Run(c, events).authority.ledger.grants[grant] == c.authority.ledger.grants[grant]
  {
    InterleavingKeeps(c, events);
    var now := Run(c, events);
    assert GrantFollows(c.authority.ledger.grants[grant], now.authority.ledger.grants[grant]);
    RevokedFails(now.authority.ledger, e.call, grant);
    if Commits(now, e, e.call) {
      CommitsOnCurrent(now, e, e.call);
    }
  }

  // Deletion

  /** A deleted identity has no active grant now and gets no grant ever again. */
  lemma DeletedForGood(c: Processes, events: seq<Event>, target: IdentityRef, grant: string)
    requires Sound(c) && target in c.authority.ledger.deleted
    ensures target in Run(c, events).authority.ledger.deleted
    ensures !HasActiveGrant(Run(c, events).authority.ledger, target)
    ensures var later := Run(c, events).authority.ledger.grants;
      grant in later && later[grant].identity == target ==> grant in c.authority.ledger.grants
  {
    InterleavingKeeps(c, events);
  }

  /** From the moment an identity is fenced for deletion by a process, no grant of it is or becomes active. */
  lemma FencedForGood(c: Processes, p: nat, events: seq<Event>)
    requires Sound(c) && p in c.authority.deletions
    ensures !HasActiveGrant(Run(c, events).authority.ledger, c.authority.deletions[p])
    ensures !Available(Run(c, events).authority.ledger, c.authority.deletions[p])
  {
    InterleavingKeeps(c, events);
    NoNewActiveGrant(c.authority.ledger, Run(c, events).authority.ledger, c.authority.deletions[p]);
  }
}
