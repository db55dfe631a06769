/**
 A refusal stands. After a request is denied or a grant revoked, no other wording, identifier or
 parameter gets a new request past it, until the user retries one explicitly.
 */
module Refusals {
  import opened Authorization
  import opened Optimism

  predicate SameRequest(r: Request, next: Request) {
    next.id == r.id && next.consumer == r.consumer && next.fingerprint == r.fingerprint
  }

  predicate Suppresses(l: Ledger, r: Request) {
    Suppressed(l, r.consumer, r.fingerprint.details)
  }

  /** Requests stay in place and new ones, if any, were not refused before; refusals stay too. */
  ghost predicate Heeds(l: Ledger, next: Ledger) {
    && |l.requests| <= |next.requests|
    && (forall i :: 0 <= i < |l.requests| ==> SameRequest(l.requests[i], next.requests[i]))
    && (forall i :: |l.requests| <= i < |next.requests| ==> !Suppresses(l, next.requests[i]))
    && l.suppressions <= next.suppressions
  }

  lemma HeedsTransitive(a: Ledger, b: Ledger, c: Ledger)
    requires Heeds(a, b) && Heeds(b, c)
    ensures Heeds(a, c)
  {
    forall i | |a.requests| <= i < |c.requests|
      ensures !Suppresses(a, c.requests[i])
    {
      if i < |b.requests| {
        assert SameRequest(b.requests[i], c.requests[i]);
      } else {
        SuppressedLater(a, b, c.requests[i]);
      }
    }
    forall i | 0 <= i < |a.requests|
      ensures SameRequest(a.requests[i], c.requests[i])
    {
      assert SameRequest(a.requests[i], b.requests[i]) && SameRequest(b.requests[i], c.requests[i]);
    }
  }

  lemma SuppressedLater(l: Ledger, next: Ledger, r: Request)
    requires l.suppressions <= next.suppressions && !Suppresses(next, r)
    ensures !Suppresses(l, r)
  {
    forall i | 0 <= i < |l.suppressions|
      ensures !Blocks(l.suppressions[i], r.consumer, r.fingerprint.details)
    {
      assert l.suppressions[i] == next.suppressions[i];
    }
  }

  lemma NewRequestHeeds(l: Ledger, consumer: string, id: string, purpose: string, details: Details, expiresAt: int)
    requires NewRequest(l, consumer, id, purpose, details, expiresAt).Done?
    ensures Heeds(l, NewRequest(l, consumer, id, purpose, details, expiresAt).ledger)
  {
  }

  lemma {:induction false} TakeFencesHeeds(l: Ledger, fences: seq<IdentityRef>)
    ensures var next := TakeFences(l, fences); next == l.(deleting := next.deleting)
  {
    if fences != [] {
      TakeFencesHeeds(l, fences[..|fences| - 1]);
    }
  }

  lemma {:induction false} ReconcileEachHeeds(l: Ledger, listed: seq<IdentityRef>, absent: set<IdentityRef>)
    ensures Heeds(l, ReconcileEach(l, listed, absent))
  {
    if listed != [] {
      var before := ReconcileEach(l, listed[..|listed| - 1], absent);
      ReconcileEachHeeds(l, listed[..|listed| - 1], absent);
      HeedsTransitive(l, before, ReconcileEach(l, listed, absent));
    }
  }

  /** Replacing a request by a later form of itself. */
  lemma ReplaceHeeds(l: Ledger, r: Request)
    requires var at := RequestPosition(l.requests, r.id); at < |l.requests| ==> SameRequest(l.requests[at], r)
    ensures Heeds(l, ReplaceRequest(l, r))
  {
  }

  lemma DecisionHeeds(l: Ledger, call: Call)
    requires call.DenyRequest? || call.ApproveCreate? || call.ApproveGrant?
    requires Act(l, call).Done?
    ensures Heeds(l, Act(l, call).ledger)
  {
    ReplaceHeeds(l, Act(l, call).reply.request);
  }

  lemma UpdateHeeds(l: Ledger, call: Call)
    requires call.Prompt? || call.CancelRequest? || call.CreationDone? || call.CreationFailed?
    requires Act(l, call).Done?
    ensures Heeds(l, Act(l, call).ledger)
  {
    if call.Prompt? {
      ReplaceHeeds(l, l.requests[RequestPosition(l.requests, call.id)].(prompted := true));
    } else {
      ReplaceHeeds(l, Act(l, call).reply.request);
    }
  }

  lemma ReconciliationHeeds(l: Ledger, fences: seq<IdentityRef>, absent: set<IdentityRef>)
    ensures Heeds(l, ReconcileDeletions(l, fences, absent))
  {
    TakeFencesHeeds(l, fences);
    ReconcileEachHeeds(TakeFences(l, fences), TakeFences(l, fences).deleting, absent);
  }

  lemma GrantCallHeeds(l: Ledger, call: Call)
    requires call.RevokeGrant? || call.OpenGrant? || call.AdmitExecution? || call.AssertExecution? || call.RecordResult?
    requires Act(l, call).Done?
    ensures Heeds(l, Act(l, call).ledger)
  {
  }

  /** Every action but an explicit retry heeds the refusals. */
  lemma ActHeeds(l: Ledger, call: Call)
    requires !call.Retry? && Act(l, call).Done?
    ensures Heeds(l, Act(l, call).ledger)
  {
    if call.AskCreate? || call.AskAccess? {
      NewRequestHeeds(l, call.consumer, call.id, call.purpose, call.details, call.expiresAt);
    } else if call.Reconciliation? {
      ReconciliationHeeds(l, call.fences, call.absent);
    } else if call.DenyRequest? || call.ApproveCreate? || call.ApproveGrant? {
      DecisionHeeds(l, call);
    } else if call.Prompt? || call.CancelRequest? || call.CreationDone? || call.CreationFailed? {
      UpdateHeeds(l, call);
    } else if !call.Nothing? && !call.CancelConsumer? {
      GrantCallHeeds(l, call);
    }
  }

  lemma TransactHeeds(l: Ledger, now: int, call: Call)
    requires !call.Retry?
    ensures Heeds(l, Transact(l, now, call).ledger)
  {
    var tidy := Tidy(l, now);
    assert Heeds(l, tidy);
    if Act(tidy, call).Done? {
      ActHeeds(tidy, call);
      HeedsTransitive(l, tidy, Act(tidy, call).ledger);
    }
  }

  predicate Retries(e: AtomicEvent) {
    e.Transaction? && e.call.Retry?
  }

  lemma FenceHeeds(l: Ledger, now: int, target: IdentityRef, generation: nat)
    ensures Heeds(l, Fenced(Expire(l, now), target).(generation := generation))
  {
  }

  lemma FinishHeeds(l: Ledger, now: int, target: IdentityRef)
    ensures Heeds(l, Finished(Tidy(l, now), target))
  {
  }

  lemma AtomicStepHeeds(a: Authority, e: AtomicEvent)
    requires !Retries(e)
    ensures Heeds(a.ledger, AtomicStep(a, e).ledger)
  {
    match e
    case Transaction(now, call) => TransactHeeds(a.ledger, now, call);
    case Access(_, _, _) =>
    case Fence(_, now, target) => FenceHeeds(a.ledger, now, target, a.ledger.generation + 1);
    case FinishDeletion(p, now) =>
      if p in a.deletions {
        FinishHeeds(a.ledger, now, a.deletions[p]);
      }
    case DropDeletion(_) =>
  }

  lemma {:induction false} AtomicRunHeeds(a: Authority, events: seq<AtomicEvent>)
    requires forall e :: e in events ==> !Retries(e)
    ensures Heeds(a.ledger, AtomicRun(a, events).ledger)
  {
    if events != [] {
      var front := events[..|events| - 1];
      AtomicRunHeeds(a, front);
      AtomicStepHeeds(AtomicRun(a, front), events[|events| - 1]);
      HeedsTransitive(a.ledger, AtomicRun(a, front).ledger, AtomicRun(a, events).ledger);
    }
  }

  /**
   In any interleaving without a retry, a refusal in the ledger keeps every request it matches out:
   the requests it would block at the end were already there at the start.
   */
  lemma RefusalStands(c: Processes, events: seq<Event>, block: Suppression, i: nat)
    requires SnapshotsFaithful(c) && block in c.authority.ledger.suppressions
    requires forall e :: e in AllAtoms(c, events) ==> !Retries(e)
    requires i < |Run(c, events).authority.ledger.requests|
    requires var r := Run(c, events).authority.ledger.requests[i]; Blocks(block, r.consumer, r.fingerprint.details)
    ensures block in Run(c, events).authority.ledger.suppressions
    ensures i < |c.authority.ledger.requests|
    ensures SameRequest(c.authority.ledger.requests[i], Run(c, events).authority.ledger.requests[i])
  {
    OptimisticRefinesAtomic(c, events);
    AtomicRunHeeds(c.authority, AllAtoms(c, events));
    var l, next := c.authority.ledger, Run(c, events).authority.ledger;
    var k :| 0 <= k < |l.suppressions| && l.suppressions[k] == block;
    assert next.suppressions[k] == block;
    if i >= |l.requests| {
      assert Suppresses(l, next.requests[i]);
    }
  }
}
