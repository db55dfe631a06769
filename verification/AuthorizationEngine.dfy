/**
 The ledger file and the loops around it: a transaction under the lock, the optimistic transaction
 that retries until no other process has written in between, and the reconciliation of deletions.
 */
module AuthorizationEngine {
  import opened Model
  import opened Authorization
  import opened Optimism

  const ATTEMPTS := 16

  /** What the world brings to one attempt: clock readings, the action as it was evaluated, and the writes of others. */
  datatype Round = Round(takenAt: int, meanwhile: seq<AtomicEvent>, call: Call, committedAt: int)

  datatype SnapshotResult = Succeeded(reply: Reply) | ActionFailed | LeaseExpired | GaveUp

  /** An event that is not the transaction's own: expiry, or something another process did during an attempt. */
  ghost predicate Ambient(rounds: seq<Round>, e: AtomicEvent) {
    (e.Transaction? && e.call == Nothing) || exists k :: 0 <= k < |rounds| && e in rounds[k].meanwhile
  }

  /** The transaction's own event, in one of its attempts. */
  ghost predicate Own(rounds: seq<Round>, e: AtomicEvent) {
    exists k :: 0 <= k < |rounds| && k < ATTEMPTS && e == Transaction(rounds[k].committedAt, rounds[k].call)
  }

  ghost predicate AllAmbient(rounds: seq<Round>, trace: seq<AtomicEvent>) {
    forall i :: 0 <= i < |trace| ==> Ambient(rounds, trace[i])
  }

  /** The events of an attempt before its commit. */
  function Opening(round: Round): seq<AtomicEvent> {
    [Transaction(round.takenAt, Nothing)] + round.meanwhile
  }

  lemma OpeningIsAmbient(rounds: seq<Round>, k: nat)
    requires k < |rounds|
    ensures AllAmbient(rounds, Opening(rounds[k]))
  {
    assert forall e :: e in rounds[k].meanwhile ==> Ambient(rounds, e);
  }

  class Engine {
    var authority: Authority

    constructor (authority: Authority)
      ensures this.authority == authority
    {
      this.authority := authority;
    }

    /** Expiry is written only if it changes something. */
    method PersistExpiry(now: int)
      modifies this
      ensures authority == old(authority).(ledger := Tidy(old(authority.ledger), now))
    {
      var state := authority.ledger;
      var expired := Expire(state, now);
      if expired != state {
        authority := authority.(ledger := expired.(generation := state.generation + 1));
      }
    }

    /** `#transaction`: expiry is written even if the action then fails. */
    method RunTransaction(now: int, call: Call) returns (reply: Option<Reply>)
      modifies this
      ensures authority == AtomicStep(old(authority), Transaction(now, call))
      ensures reply == Transact(old(authority.ledger), now, call).reply
    {
      PersistExpiry(now);
      var state := authority.ledger;
      var outcome := Act(state, call);
      if outcome.Failed? {
        return None;
      }
      if outcome.ledger != state {
        authority := authority.(ledger := outcome.ledger.(generation := state.generation + 1));
      }
      reply := Some(outcome.reply);
    }

    /** The writes other processes make meanwhile. */
    method OthersAct(events: seq<AtomicEvent>)
      modifies this
      ensures authority == AtomicRun(old(authority), events)
    {
      var i := 0;
      while i < |events|
        invariant 0 <= i <= |events|
        invariant authority == AtomicRun(old(authority), events[..i])
      {
        assert events[..i + 1][..i] == events[..i];
        authority := AtomicStep(authority, events[i]);
        i := i + 1;
      }
      assert events[..|events|] == events;
    }

    /** The end of one attempt, under the lock. */
    method TryCommit(snapshot: Ledger, now: int, call: Call, deadline: Option<int>) returns (attempt: Attempt)
      modifies this
      ensures attempt == CommitAttempt(old(authority.ledger), snapshot, now, call, deadline)
      ensures authority == match attempt
        case Overdue => AtomicStep(old(authority), Transaction(now, Nothing))
        case Committed(next, _) => old(authority).(ledger := next)
        case _ => old(authority)
    {
      var outcome := Act(snapshot, call);
      if outcome.Failed? {
        return Aborted;
      }
      var current := authority.ledger;
      if current.generation != snapshot.generation {
        return Conflict;
      }
      if deadline.Some? && deadline.value <= now {
        return TimedOut;
      }
      if Expire(current, now) != current {
        PersistExpiry(now);
        TidyAlone(current, now);
        return Overdue;
      }
      var next :=
        if outcome.ledger != snapshot then outcome.ledger.(generation := snapshot.generation + 1) else current;
      authority := authority.(ledger := next);
      attempt := Committed(next, outcome.reply);
    }

    /** One attempt: a snapshot, the others, and the commit. */
    method OneAttempt(round: Round, deadline: Option<int>) returns (attempt: Attempt)
      modifies this
      ensures var current := AtomicRun(old(authority), Opening(round));
        && authority == (match attempt
             case Committed(_, _) => AtomicStep(current, Transaction(round.committedAt, round.call))
             case Overdue => AtomicStep(current, Transaction(round.committedAt, Nothing))
             case _ => current)
        && (attempt.Committed? ==> Transact(current.ledger, round.committedAt, round.call).reply == Some(attempt.reply))
    {
      ghost var before := authority;
      var _ := RunTransaction(round.takenAt, Nothing);
      var snapshot := authority.ledger;
      OthersAct(round.meanwhile);
      SnapshotStays(before, round);
      OpeningRuns(before, round, authority);
      ghost var current := authority;
      attempt := TryCommit(snapshot, round.committedAt, round.call, deadline);
      if attempt.Committed? {
        CommitIsAtomic(Processes(current, map[0 := snapshot]), 0, round.committedAt, round.call, deadline);
      }
    }

    /**
     `#snapshotTransaction`: its effect is that of expiry and the work of other processes, and, if it
     succeeds, of the transaction itself at the end, on the ledger of that moment and with that reply.
     */
    method SnapshotTransaction(rounds: seq<Round>, deadline: Option<int>)
      returns (result: SnapshotResult, ambient: seq<AtomicEvent>, own: Option<AtomicEvent>)
      requires |rounds| >= ATTEMPTS && forall i :: 0 <= i < |rounds| ==> Optimistic(rounds[i].call)
      modifies this
      ensures AllAmbient(rounds, ambient)
      ensures result.Succeeded? <==> own.Some?
      ensures own.None? ==> authority == AtomicRun(old(authority), ambient)
      ensures own.Some? ==>
        && Own(rounds, own.value)
        && authority == AtomicStep(AtomicRun(old(authority), ambient), own.value)
        && var before := AtomicRun(old(authority), ambient).ledger;
        && Transact(before, own.value.now, own.value.call).reply == Some(result.reply)
    {
      ambient, own := [], None;
      var attempt := 0;
      while attempt < ATTEMPTS
        invariant 0 <= attempt <= ATTEMPTS
        invariant authority == AtomicRun(old(authority), ambient)
        invariant AllAmbient(rounds, ambient)
      {
        var round := rounds[attempt];
        var outcome := OneAttempt(round, deadline);
        AtomicRunAppend(old(authority), ambient, Opening(round));
        OpeningIsAmbient(rounds, attempt);
        ambient := ambient + Opening(round);
        match outcome {
          case Aborted => return ActionFailed, ambient, None;
          case TimedOut => return LeaseExpired, ambient, None;
          case Committed(_, reply) =>
            return SnapshotResult.Succeeded(reply), ambient, Some(Transaction(round.committedAt, round.call));
          case Overdue =>
            RunPlus(old(authority), ambient, AtomicRun(old(authority), ambient),
                    Transaction(round.committedAt, Nothing));
            ambient := ambient + [Transaction(round.committedAt, Nothing)];
          case Conflict =>
        }
        attempt := attempt + 1;
      }
      result := GaveUp;
    }

    /** `reconcileDeletions` on a snapshot: first the fences of the catalog, then every identity fenced so far. */
    method ReconcileFences(state: Ledger, fences: seq<IdentityRef>, absent: set<IdentityRef>) returns (r: Ledger)
      ensures r == ReconcileDeletions(state, fences, absent)
    {
      r := state;
      var i := 0;
      while i < |fences|
        invariant 0 <= i <= |fences|
        invariant r == TakeFences(state, fences[..i])
      {
        assert fences[..i + 1][..i] == fences[..i];
        if fences[i] !in r.deleted && fences[i] !in r.deleting {
          r := r.(deleting := r.deleting + [fences[i]]);
        }
        i := i + 1;
      }
      assert fences[..|fences|] == fences;
      var fenced := r;
      var listed := r.deleting;
      i := 0;
      while i < |listed|
        invariant 0 <= i <= |listed|
        invariant r == ReconcileEach(fenced, listed[..i], absent)
      {
        assert listed[..i + 1][..i] == listed[..i];
        if !HasActiveGrant(r, listed[i]) && listed[i] in absent {
          r := CompleteDeletion(r, listed[i]);
        }
        i := i + 1;
      }
      assert listed[..|listed|] == listed;
    }
  }

  /** One more event of a run. */
  lemma RunPlus(start: Authority, events: seq<AtomicEvent>, a: Authority, e: AtomicEvent)
    requires a == AtomicRun(start, events)
    ensures AtomicRun(start, events + [e]) == AtomicStep(a, e)
  {
    AtomicRunAppend(start, events, [e]);
    RunOne(a, e);
  }

  /** The first half of an attempt: the snapshot, then the others. */
  lemma OpeningRuns(a: Authority, round: Round, end: Authority)
    requires end == AtomicRun(AtomicStep(a, Transaction(round.takenAt, Nothing)), round.meanwhile)
    ensures end == AtomicRun(a, Opening(round))
  {
    RunOne(a, Transaction(round.takenAt, Nothing));
    AtomicRunAppend(a, [Transaction(round.takenAt, Nothing)], round.meanwhile);
  }

  /** However the others write, a snapshot of the current generation is the current ledger. */
  lemma SnapshotStays(a: Authority, round: Round)
    ensures var taken := AtomicStep(a, Transaction(round.takenAt, Nothing));
      Faithful(taken.ledger, AtomicRun(taken, round.meanwhile).ledger)
  {
    FaithfulAfter(AtomicStep(a, Transaction(round.takenAt, Nothing)), round.meanwhile);
  }

  lemma {:induction false} FaithfulAfter(a: Authority, events: seq<AtomicEvent>)
    ensures Faithful(a.ledger, AtomicRun(a, events).ledger)
  {
    if events != [] {
      FaithfulAfter(a, events[..|events| - 1]);
      WritesAdvance(AtomicRun(a, events[..|events| - 1]), events[|events| - 1]);
    }
  }
}
