/**
 Moving an identity to another DID over whole runs: a predecessor never forks, a settled transition
 stays settled, and no step succeeds once either identity record has changed.
 */
module TransitionSafety {
  import opened Model
  import opened CrashAtomicity
  import opened Adoption
  import opened Engine
  import opened Runs
  import opened RunLaws
  import opened StoreSafety
  import T = Transitions

  // How a journal moves

  ghost predicate JournalsKept(s: Store, e: Event) {
    Step(s, e).disk.transitions == s.disk.transitions && Step(s, e).pins == s.pins
  }

  lemma AskKeepsJournals(s: Store, e: Event)
    requires Inv(s) && e.Ask?
    ensures JournalsKept(s, e)
  {
    if Proceeds(s, e) {
      var c := Respond(s.disk, s.handles[e.h], e.request).change;
      AskUpdates(s, e, c);
      AskNotes(s, e, c);
    } else {
      AskIdle(s, e);
    }
  }

  lemma BringKeepsJournals(s: Store, e: Event)
    requires Inv(s) && e.Bring?
    ensures JournalsKept(s, e)
  {
    if CanBring(s, e.m, e.id, e.birth) {
      BringAdds(s, e);
    }
  }

  lemma LeavingKeepsJournals(s: Store, e: Event)
    requires Inv(s) && (e.Remove? || e.Discard?)
    ensures JournalsKept(s, e)
  {
    LeavingRemoves(s, e);
  }

  lemma ViewKeepsJournals(s: Store, e: Event)
    requires e.OpenStore? || e.OpenIdentity? || e.Reload? || e.Close? || e.ResumeTransition?
    ensures JournalsKept(s, e)
  {
  }

  lemma OtherStepsKeepJournals(s: Store, e: Event)
    requires Inv(s) && !IsSessionStep(e) && !e.PrepareTransition?
    ensures JournalsKept(s, e)
  {
    match e
    case Ask(_, _, _) => AskKeepsJournals(s, e);
    case Bring(_, _, _, _, _, _) => BringKeepsJournals(s, e);
    case Remove(_, _, _, _, _) => LeavingKeepsJournals(s, e);
    case Discard(_, _, _, _, _, _) => LeavingKeepsJournals(s, e);
    case _ => ViewKeepsJournals(s, e);
  }

  /** Preparing adds at most the journal of its own operation. */
  lemma PreparingKeepsJournals(s: Store, e: Event, op: string)
    requires e.PrepareTransition? && op in s.disk.transitions
    ensures op in Step(s, e).disk.transitions && Step(s, e).disk.transitions[op] == s.disk.transitions[op]
    ensures op in s.pins ==> op in Step(s, e).pins && Step(s, e).pins[op] == s.pins[op]
  {
  }

  /** A step leaves a stored journal alone, or continues it from an open state, through a session. */
  lemma JournalStep(s: Store, e: Event, op: string)
    requires Inv(s) && op in s.disk.transitions
    ensures op in Step(s, e).disk.transitions
    ensures var before, after := s.disk.transitions[op], Step(s, e).disk.transitions[op];
      after == before || (IsSessionStep(e) && SessionWrites(s, e) == Some(after) && Continues(before, after))
  {
    if IsSessionStep(e) {
      SessionJournalStep(s, e, op);
    } else if e.PrepareTransition? {
      PreparingKeepsJournals(s, e, op);
    } else {
      OtherStepsKeepJournals(s, e);
    }
  }

  lemma SessionIdle(s: Store, e: Event)
    requires IsSessionStep(e) && SessionWrites(s, e).None?
    ensures Step(s, e) == s
  {
  }

  lemma OperationsMatch(s: Store)
    requires Inv(s)
    ensures Keyed(s.disk)
  {
    assert forall op :: op in s.disk.transitions ==> Pinned(s, op);
  }

  lemma JournaledAt(s: Store, t: nat, journal: Transition, op: string)
    requires op in s.disk.transitions && journal.operation in s.disk.transitions
    ensures var end := Journaled(s, t, Some(journal));
      && op in end.disk.transitions && end.pins == s.pins
      && end.disk.transitions[op] == if op == journal.operation then journal else s.disk.transitions[op]
  {
  }

  lemma SessionJournalStep(s: Store, e: Event, op: string)
    requires Inv(s) && op in s.disk.transitions && IsSessionStep(e)
    ensures op in Step(s, e).disk.transitions && Step(s, e).pins == s.pins
    ensures var before, after := s.disk.transitions[op], Step(s, e).disk.transitions[op];
      after == before || (SessionWrites(s, e) == Some(after) && Continues(before, after))
  {
    if SessionWrites(s, e).Some? {
      OperationsMatch(s);
      SessionContinues(s, e);
      JournaledAt(s, e.t, SessionWrites(s, e).value, op);
    } else {
      SessionIdle(s, e);
    }
  }

  /** A committed or aborted transition stays as it is. */
  lemma {:induction false} SettledForGood(s: Store, events: seq<Event>, op: string)
    requires Inv(s) && op in s.disk.transitions && !IsOpen(s.disk.transitions[op].state)
    ensures op in Run(s, events).disk.transitions
    ensures Run(s, events).disk.transitions[op] == s.disk.transitions[op]
  {
    if events != [] {
      var front := events[..|events| - 1];
      SettledForGood(s, front, op);
      RunKeeps(s, front);
      JournalStep(Run(s, front), events[|events| - 1], op);
      if IsSessionStep(events[|events| - 1]) && SessionWrites(Run(s, front), events[|events| - 1]).Some? {
        assert forall other :: other in Run(s, front).disk.transitions ==> Pinned(Run(s, front), other);
        SessionContinues(Run(s, front), events[|events| - 1]);
      }
    }
  }

  /** A predecessor has at most one successor for ever: two transitions of it that were ever committed are the same. */
  lemma OneSuccessorEver(s: Store, events: seq<Event>, first: string, second: string)
    requires Reachable(s) && first in s.disk.transitions && s.disk.transitions[first].state == TCommitted
    requires second in Run(s, events).disk.transitions && Run(s, events).disk.transitions[second].state == TCommitted
    requires Run(s, events).disk.transitions[second].predecessorDid == s.disk.transitions[first].predecessorDid
    ensures first == second
  {
    ReachableInv(s);
    SettledForGood(s, events, first);
    RunKeeps(s, events);
    assert Rivals(Run(s, events).disk.transitions[first], Run(s, events).disk.transitions[second]);
  }

  lemma OpenJournalsAreOne(d: Disk, did: Did)
    requires NoFork(d)
    ensures |T.OpenJournals(d, did)| <= 1
  {
    var open := T.OpenJournals(d, did);
    if open != {} {
      var op :| op in open;
      forall other | other in open
        ensures other == op
      {
        assert Rivals(d.transitions[other], d.transitions[op]);
      }
      assert open == {op};
    }
  }

  /** Resuming never finds more than one open journal of a predecessor. */
  lemma ResumeIsUnambiguous(s: Store, did: Did)
    requires Reachable(s)
    ensures |T.OpenJournals(s.disk, did)| <= 1
  {
    ReachableInv(s);
    OpenJournalsAreOne(s.disk, did);
  }

  // Pinning

  /** Both records are still the ones the transition was prepared on. */
  ghost predicate Untouched(s: Store, op: string) {
    && op in s.pins
    && s.pins[op].predecessor.id in s.disk.records
    && s.disk.records[s.pins[op].predecessor.id] == s.pins[op].predecessor
    && s.pins[op].successor.id in s.disk.records && s.disk.records[s.pins[op].successor.id] == s.pins[op].successor
  }

  /** A step of a transition succeeds only while both records are untouched. */
  lemma StepsNeedUntouchedRecords(s: Store, e: Event)
    requires Inv(s) && IsSessionStep(e) && SessionWrites(s, e).Some?
    ensures Untouched(s, SessionWrites(s, e).value.operation)
  {
    OperationsMatch(s);
    SessionContinues(s, e);
    assert Pinned(s, SessionWrites(s, e).value.operation);
  }

  lemma PinFixed(s: Store, e: Event, op: string)
    requires Inv(s) && op in s.disk.transitions
    ensures op in Step(s, e).pins && op in s.pins && Step(s, e).pins[op] == s.pins[op]
  {
    assert Pinned(s, op);
    if IsSessionStep(e) {
      SessionJournalStep(s, e, op);
    } else if e.PrepareTransition? {
      PreparingKeepsJournals(s, e, op);
    } else {
      OtherStepsKeepJournals(s, e);
    }
  }

  /** One of the pinned records was replaced or removed. */
  ghost predicate Broken(s: Store, op: string) {
    op in s.disk.transitions && op in s.pins
    && (Overtaken(s, s.pins[op].predecessor) || Overtaken(s, s.pins[op].successor))
  }

  ghost predicate Overtaken(s: Store, copy: Record) {
    copy.id in s.used && (copy.id in s.disk.records ==> copy.generation < s.disk.records[copy.id].generation)
  }

  lemma OvertakenStays(s: Store, e: Event, copy: Record)
    requires Inv(s) && Overtaken(s, copy)
    ensures Overtaken(Step(s, e), copy)
  {
    UsedGrows(s, e);
    if copy.id in s.disk.records {
      StepOnRecord(s, e, copy.id);
    } else {
      GoneStaysGone(s, e, copy.id);
    }
  }

  lemma BrokenRefuses(s: Store, e: Event, op: string)
    requires Inv(s) && Broken(s, op) && IsSessionStep(e)
    ensures SessionWrites(s, e).None? || SessionWrites(s, e).value.operation != op
  {
    if SessionWrites(s, e).Some? {
      StepsNeedUntouchedRecords(s, e);
    }
  }

  /** Once either record has changed, no step of the transition ever succeeds again. */
  lemma {:induction false} BrokenForGood(s: Store, events: seq<Event>, op: string)
    requires Inv(s) && Broken(s, op)
    ensures Broken(Run(s, events), op)
    ensures Run(s, events).disk.transitions[op] == s.disk.transitions[op]
  {
    if events != [] {
      var front, last := events[..|events| - 1], events[|events| - 1];
      BrokenForGood(s, front, op);
      var t := Run(s, front);
      RunKeeps(s, front);
      JournalStep(t, last, op);
      PinFixed(t, last, op);
      if Overtaken(t, t.pins[op].predecessor) {
        OvertakenStays(t, last, t.pins[op].predecessor);
      } else {
        OvertakenStays(t, last, t.pins[op].successor);
      }
      if IsSessionStep(last) {
        BrokenRefuses(t, last, op);
        assert Pinned(t, op);
      }
    }
  }

  /** Any change of a pinned record breaks the transition. */
  lemma ChangeBreaks(s: Store, e: Event, op: string, id: Id)
    requires Inv(s) && op in s.disk.transitions && Untouched(s, op)
    requires id == s.pins[op].predecessor.id || id == s.pins[op].successor.id
    requires id !in Step(s, e).disk.records || Step(s, e).disk.records[id] != s.disk.records[id]
    ensures Broken(Step(s, e), op)
  {
    assert Pinned(s, op) && id in s.used;
    JournalStep(s, e, op);
    PinFixed(s, e, op);
    UsedGrows(s, e);
    StepOnRecord(s, e, id);
  }

  /**
   From the preparation to any later step that succeeds, the records of both identities are the ones
   the transition was prepared on.
   */
  lemma PinnedSincePreparation(s: Store, prepare: Event, events: seq<Event>, e: Event, op: string)
    requires Inv(s) && prepare.PrepareTransition? && op !in s.disk.transitions
    requires op in Step(s, prepare).disk.transitions
    requires IsSessionStep(e)
    requires var end := Run(Step(s, prepare), events);
      SessionWrites(end, e).Some? && SessionWrites(end, e).value.operation == op
    ensures var t, end := Step(s, prepare).disk.transitions[op], Run(Step(s, prepare), events);
      && t.predecessorId in s.disk.records && t.successorId in s.disk.records
      && t.predecessorId in end.disk.records && end.disk.records[t.predecessorId] == s.disk.records[t.predecessorId]
      && t.successorId in end.disk.records && end.disk.records[t.successorId] == s.disk.records[t.successorId]
  {
    var first := Step(s, prepare);
    StepKeeps(s, prepare);
    PreparationPins(s, prepare, op);
    PinsThroughout(first, events, op);
    RunKeeps(first, events);
    StepsNeedUntouchedRecords(Run(first, events), e);
  }

  lemma PreparationPins(s: Store, prepare: Event, op: string)
    requires Inv(s) && prepare.PrepareTransition? && op !in s.disk.transitions
    requires op in Step(s, prepare).disk.transitions
    ensures var first := Step(s, prepare); var t := first.disk.transitions[op];
      && op in first.pins && t.predecessorId in s.disk.records && t.successorId in s.disk.records
      && first.pins[op] == Pin(s.disk.records[t.predecessorId], s.disk.records[t.successorId])
      && first.pins[op].predecessor.id == t.predecessorId && first.pins[op].successor.id == t.successorId
  {
    PreparedStepPins(s, prepare.m, prepare.t, prepare.proposal, prepare.setting, op, Step(s, prepare));
  }

  lemma PreparedStepPins(s: Store, m: nat, t: nat, proposal: T.TransitionRequest, setting: T.TransitionSetting,
                         op: string, first: Store)
    requires Consistent(s.disk) && op !in s.disk.transitions && op in first.disk.transitions
    requires first == PrepareTransitionStep(s, m, t, proposal, setting)
    ensures var t := first.disk.transitions[op];
      && op in first.pins && t.predecessorId in s.disk.records && t.successorId in s.disk.records
      && first.pins[op] == Pin(s.disk.records[t.predecessorId], s.disk.records[t.successorId])
      && first.pins[op].predecessor.id == t.predecessorId && first.pins[op].successor.id == t.successorId
  {
    assert RegistryMatches(s.disk);
  }

  lemma {:induction false} PinsThroughout(s: Store, events: seq<Event>, op: string)
    requires Inv(s) && op in s.disk.transitions
    ensures op in Run(s, events).disk.transitions && op in s.pins
    ensures op in Run(s, events).pins && Run(s, events).pins[op] == s.pins[op]
  {
    assert Pinned(s, op);
    if events != [] {
      var front := events[..|events| - 1];
      PinsThroughout(s, front, op);
      RunKeeps(s, front);
      JournalStep(Run(s, front), events[|events| - 1], op);
      PinFixed(Run(s, front), events[|events| - 1], op);
    }
  }

  /** While a transition of either identity is open, adopting a sibling's document is refused. */
  lemma SiblingAdoptionExcluded(s: Store, h: nat, document: Document, evidence: Evidence, valid: bool, tx: Id,
                                op: string)
    requires h in s.handles && op in s.disk.transitions && IsOpen(s.disk.transitions[op].state)
    requires || s.handles[h].id == s.disk.transitions[op].predecessorId
             || s.handles[h].id == s.disk.transitions[op].successorId
    ensures Respond(s.disk, s.handles[h], AdoptDocument(document, evidence, valid, true, tx)) == Refusal
  {
  }

  /** A handle of the identity asks to adopt a sibling's document. */
  predicate AdoptsSibling(s: Store, e: Event, id: Id) {
    e.Ask? && e.h in s.handles && s.handles[e.h].id == id && e.request.AdoptDocument? && e.request.sibling
  }

  /** A journal names the same two identities throughout, and is open now only if it was open before. */
  lemma {:induction false} JournalThroughout(s: Store, events: seq<Event>, op: string)
    requires Inv(s) && op in s.disk.transitions
    ensures op in Run(s, events).disk.transitions
    ensures var before, after := s.disk.transitions[op], Run(s, events).disk.transitions[op];
      && after.predecessorId == before.predecessorId && after.successorId == before.successorId
      && (IsOpen(after.state) ==> IsOpen(before.state))
  {
    if events != [] {
      var front := events[..|events| - 1];
      JournalThroughout(s, front, op);
      RunKeeps(s, front);
      JournalStep(Run(s, front), events[|events| - 1], op);
    }
  }

  /**
   From the preparation of a transition until it is settled, no sibling's document is adopted for either
   identity: an adoption asked for at any moment between, after which the journal is still found open,
   changed nothing.
   */
  lemma SiblingsWaitForTheTransition(s: Store, before: seq<Event>, e: Event, after: seq<Event>, op: string)
    requires Inv(s) && op in s.disk.transitions
    requires || AdoptsSibling(Run(s, before), e, s.disk.transitions[op].predecessorId)
             || AdoptsSibling(Run(s, before), e, s.disk.transitions[op].successorId)
    requires op in Run(Step(Run(s, before), e), after).disk.transitions
    requires IsOpen(Run(Step(Run(s, before), e), after).disk.transitions[op].state)
    ensures Step(Run(s, before), e) == Run(s, before)
  {
    var now := Run(s, before);
    JournalThroughout(s, before, op);
    RunKeeps(s, before);
    JournalStep(now, e, op);
    StepKeeps(now, e);
    JournalThroughout(Step(now, e), after, op);
    SiblingAdoptionExcluded(now, e.h, e.request.document, e.request.evidence, e.request.valid, e.request.tx, op);
    AskIdle(now, e);
  }

  // Attempts to publish a transition

  ghost predicate CompletesAttempt(s: Store, e: Event, attempt: T.TransitionAttempt) {
    e.CompleteTransition? && e.attempt == attempt && SessionWrites(s, e).Some?
  }

  /** The journal has moved past the attempt. */
  predicate PastAttempt(d: Disk, attempt: T.TransitionAttempt) {
    attempt.operation in d.transitions && attempt.generation < d.transitions[attempt.operation].generation
  }

  lemma AttemptWasCurrent(s: Store, e: Event, attempt: T.TransitionAttempt)
    requires Inv(s) && CompletesAttempt(s, e, attempt)
    ensures attempt.operation in s.disk.transitions
    ensures s.disk.transitions[attempt.operation].generation == attempt.generation
    ensures PastAttempt(Step(s, e).disk, attempt)
  {
    OperationsMatch(s);
    SessionContinues(s, e);
    JournaledAt(s, e.t, SessionWrites(s, e).value, attempt.operation);
  }

  lemma PastStays(s: Store, e: Event, attempt: T.TransitionAttempt)
    requires Inv(s) && PastAttempt(s.disk, attempt)
    ensures PastAttempt(Step(s, e).disk, attempt)
  {
    JournalStep(s, e, attempt.operation);
  }

  ghost function Completions(s: Store, events: seq<Event>, attempt: T.TransitionAttempt): nat {
    if events == [] then 0
    else
      Completions(s, events[..|events| - 1], attempt)
      + if CompletesAttempt(Run(s, events[..|events| - 1]), events[|events| - 1], attempt) then 1 else 0
  }

  /** Over any run at most one call completes a given attempt to publish a transition. */
  lemma {:induction false} TransitionAttemptCompletesOnce(s: Store, events: seq<Event>, attempt: T.TransitionAttempt)
    requires Inv(s)
    ensures Completions(s, events, attempt) <= 1
    ensures Completions(s, events, attempt) == 1 ==> PastAttempt(Run(s, events).disk, attempt)
  {
    if events != [] {
      var front, last := events[..|events| - 1], events[|events| - 1];
      TransitionAttemptCompletesOnce(s, front, attempt);
      RunKeeps(s, front);
      if CompletesAttempt(Run(s, front), last, attempt) {
        AttemptWasCurrent(Run(s, front), last, attempt);
      } else if Completions(s, front, attempt) == 1 {
        PastStays(Run(s, front), last, attempt);
      }
    }
  }
}
