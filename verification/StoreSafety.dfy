/**
 Safety over whole runs of the store: what holds in every reachable state and between any two of
 them, however the handles interleave and wherever operations die.
 */
module StoreSafety {
  import opened Model
  import opened Recovery
  import opened CrashAtomicity
  import opened Adoption
  import opened Engine
  import opened EngineLaws
  import opened Births
  import opened Runs
  import opened RunLaws
  import T = Transitions

  ghost predicate Reachable(s: Store) {
    exists events: seq<Event> :: s == Run(Empty(), events)
  }

  lemma ReachableInv(s: Store)
    requires Reachable(s)
    ensures Inv(s)
  {
    var events: seq<Event> :| s == Run(Empty(), events);
    EmptyInv();
    RunKeeps(Empty(), events);
  }

  // One identity through a run

  /** What a step does to a stored record: removes it, leaves it, or lets it evolve as a request asked. */
  ghost predicate RecordStep(s: Store, e: Event, id: Id)
    requires id in s.disk.records
  {
    var r, end := s.disk.records[id], Step(s, e).disk;
    if id !in end.records then (e.Remove? || e.Discard?) && r.pending.None?
    else
      || end.records[id] == r
      || (&& e.Ask? && e.h in s.handles && s.handles[e.h] == r
          && Evolves(r, end.records[id]) && RevisionStep(r, e.request, end.records[id]))
  }

  lemma AskOnRecord(s: Store, e: Event, id: Id)
    requires Inv(s) && e.Ask? && id in s.disk.records
    ensures RecordStep(s, e, id)
  {
    if Proceeds(s, e) {
      AskUpdates(s, e, Respond(s.disk, s.handles[e.h], e.request).change);
    } else {
      AskIdle(s, e);
    }
  }

  lemma StepOnRecord(s: Store, e: Event, id: Id)
    requires Inv(s) && id in s.disk.records
    ensures RecordStep(s, e, id)
  {
    if e.Ask? {
      AskOnRecord(s, e, id);
    } else if e.Bring? {
      if CanBring(s, e.m, e.id, e.birth) {
        BringAdds(s, e);
      }
    } else if e.Remove? || e.Discard? {
      LeavingOnRecord(s, e, id);
    } else {
      RecordsStay(s, e);
    }
  }

  lemma RecordsStay(s: Store, e: Event)
    requires !e.Ask? && !e.Bring? && !e.Remove? && !e.Discard?
    ensures Step(s, e).disk.records == s.disk.records
  {
    match e
    case PrepareTransition(m, t, proposal, setting) => PreparingKeepsRecords(s, m, t, proposal, setting);
    case ResumeTransition(m, t, did) => ResumeView(s, m, t, did);
    case _ =>
  }

  lemma PreparingKeepsRecords(s: Store, m: nat, t: nat, proposal: T.TransitionRequest, setting: T.TransitionSetting)
    ensures PrepareTransitionStep(s, m, t, proposal, setting).disk.records == s.disk.records
  {
  }

  lemma LeavingOnRecord(s: Store, e: Event, id: Id)
    requires Inv(s) && (e.Remove? || e.Discard?) && id in s.disk.records
    ensures RecordStep(s, e, id)
  {
    LeavingRemoves(s, e);
  }

  /** An identifier that was ever drawn never names a new identity. */
  lemma GoneStaysGone(s: Store, e: Event, id: Id)
    requires Inv(s) && id in s.used && id !in s.disk.records
    ensures id in Step(s, e).used && id !in Step(s, e).disk.records
  {
    UsedGrows(s, e);
    if e.Ask? {
      if Proceeds(s, e) {
        AskUpdates(s, e, Respond(s.disk, s.handles[e.h], e.request).change);
      } else {
        AskIdle(s, e);
      }
    } else if e.Bring? {
      if CanBring(s, e.m, e.id, e.birth) {
        BringAdds(s, e);
      }
    } else if e.Remove? || e.Discard? {
      LeavingRemoves(s, e);
    } else {
      RecordsStay(s, e);
    }
  }

  lemma UsedGrows(s: Store, e: Event)
    ensures s.used <= Step(s, e).used
  {
  }

  /** An identity present at both ends of a run was there all along. */
  lemma {:induction false} PresentThroughout(s: Store, events: seq<Event>, id: Id)
    requires Inv(s) && id in s.disk.records && events != []
    requires id in Run(s, events).disk.records
    ensures id in Run(s, events[..|events| - 1]).disk.records
  {
    var front := events[..|events| - 1];
    RunKeeps(s, front);
    assert id in s.used;
    UsedThroughout(s, front, id);
    if id !in Run(s, front).disk.records {
      GoneStaysGone(Run(s, front), events[|events| - 1], id);
    }
  }

  lemma {:induction false} UsedThroughout(s: Store, events: seq<Event>, id: Id)
    requires id in s.used
    ensures id in Run(s, events).used
  {
    if events != [] {
      UsedThroughout(s, events[..|events| - 1], id);
      UsedGrows(Run(s, events[..|events| - 1]), events[|events| - 1]);
    }
  }

  // Handles and generations

  /** A change is made only through a handle that holds the stored record; the stored generation advances by one. */
  lemma ChangesComeFromTheLatest(s: Store, e: Event, id: Id)
    requires Reachable(s) && id in s.disk.records && id in Step(s, e).disk.records
    requires Step(s, e).disk.records[id] != s.disk.records[id]
    ensures e.Ask? && e.h in s.handles && s.handles[e.h] == s.disk.records[id]
    ensures Step(s, e).disk.records[id].generation == s.disk.records[id].generation + 1
  {
    ReachableInv(s);
    StepOnRecord(s, e, id);
  }

  /** A handle left behind changes nothing until it is reloaded. */
  lemma StaleHandleChangesNothing(s: Store, h: nat, request: Request, fate: Fate)
    requires h in s.handles && s.handles[h].id in s.disk.records
    requires s.handles[h].generation != s.disk.records[s.handles[h].id].generation
    ensures Step(s, Ask(h, request, fate)) == s
  {
    if Proceeds(s, Ask(h, request, fate)) {
      MakesOnlyWhenStored(s.disk, s.handles[h], request);
    } else {
      AskIdle(s, Ask(h, request, fate));
    }
  }

  predicate Changed(before: Disk, after: Disk, id: Id) {
    id in before.records && id in after.records && after.records[id] != before.records[id]
  }

  ghost function Changes(s: Store, events: seq<Event>, id: Id): nat {
    if events == [] then 0
    else
      var before := Run(s, events[..|events| - 1]);
      Changes(s, events[..|events| - 1], id)
      + if Changed(before.disk, Step(before, events[|events| - 1]).disk, id) then 1 else 0
  }

  /** The generation counts the changes, so the successful ones form a single chain. */
  lemma {:induction false} GenerationCountsChanges(s: Store, events: seq<Event>, id: Id)
    requires Inv(s) && id in s.disk.records && id in Run(s, events).disk.records
    ensures Run(s, events).disk.records[id].generation == s.disk.records[id].generation + Changes(s, events, id)
  {
    if events != [] {
      var front := events[..|events| - 1];
      PresentThroughout(s, events, id);
      GenerationCountsChanges(s, front, id);
      RunKeeps(s, front);
      StepOnRecord(Run(s, front), events[|events| - 1], id);
    }
  }

  // Checkpoints

  /** The step replaced a checkpoint by one that is not ahead of it. */
  ghost predicate Slips(s: Store, e: Event, id: Id) {
    && id in s.disk.records && id in Step(s, e).disk.records
    && !Ahead(s.disk.records[id].checkpoint, Step(s, e).disk.records[id].checkpoint)
  }

  ghost function Slipped(s: Store, events: seq<Event>, id: Id): nat {
    if events == [] then 0
    else
      Slipped(s, events[..|events| - 1], id)
      + if Slips(Run(s, events[..|events| - 1]), events[|events| - 1], id) then 1 else 0
  }

  /** A checkpoint slips only at the first confirmation of a created document, and then only in its proof. */
  lemma SlipIsProofOnly(s: Store, e: Event, id: Id)
    requires Inv(s) && Slips(s, e, id)
    ensures ProofOnly(s.disk.records[id], Step(s, e).disk.records[id])
  {
    StepOnRecord(s, e, id);
  }

  function Unconfirmed(r: Record): nat {
    if r.initialPending then 1 else 0
  }

  /** Both versions advance, and a slip uses up the one exception. */
  predicate Advanced(r: Record, q: Record, slips: nat) {
    && r.checkpoint.document <= q.checkpoint.document && r.checkpoint.registry <= q.checkpoint.registry
    && slips + Unconfirmed(q) <= Unconfirmed(r)
    && (slips == 0 ==> Ahead(r.checkpoint, q.checkpoint))
  }

  lemma AdvancedStep(s: Store, e: Event, id: Id)
    requires Inv(s) && id in s.disk.records && id in Step(s, e).disk.records
    ensures Advanced(s.disk.records[id], Step(s, e).disk.records[id], if Slips(s, e, id) then 1 else 0)
  {
    StepOnRecord(s, e, id);
  }

  lemma AdvancedAgain(r: Record, q: Record, p: Record, slips: nat, more: nat)
    requires Advanced(r, q, slips) && Advanced(q, p, more)
    ensures Advanced(r, p, slips + more)
  {
  }

  /**
   Over any run both versions never decrease, and the digest of a version changes at most once: the
   number of slips is at most one, and zero once the first publication is confirmed.
   */
  lemma {:induction false} CheckpointsOnlyAdvance(s: Store, events: seq<Event>, id: Id)
    requires Inv(s) && id in s.disk.records && id in Run(s, events).disk.records
    ensures Advanced(s.disk.records[id], Run(s, events).disk.records[id], Slipped(s, events, id))
  {
    if events != [] {
      var front, last := events[..|events| - 1], events[|events| - 1];
      PresentThroughout(s, events, id);
      CheckpointsOnlyAdvance(s, front, id);
      RunKeeps(s, front);
      var t := Run(s, front);
      AdvancedStep(t, last, id);
      AdvancedAgain(s.disk.records[id], t.disk.records[id], Step(t, last).disk.records[id],
                    Slipped(s, front, id), if Slips(t, last, id) then 1 else 0);
    }
  }

  // Devices of Web identities

  /** The device check of a commit never refuses a Web identity. */
  lemma WebCommitObserves(s: Store, id: Id)
    requires Reachable(s) && id in s.disk.records && s.disk.records[id].did.Web? && s.disk.records[id].pending.Some?
    ensures Observed(s.disk.records[id], s.disk.records[id].pending.value.candidate).Some?
  {
    ReachableInv(s);
    assert Kept(s.disk.records[id]);
  }

  /** Root promotion, which skips the device check, is impossible for a Web identity. */
  lemma WebIsNeverPromoted(s: Store, h: nat, document: Document, evidence: Evidence, valid: bool, tx: Id)
    requires Inv(s) && h in s.handles && s.handles[h].did.Web?
    ensures !Respond(s.disk, s.handles[h], ConfirmRoot(document, evidence, valid, tx)).Make?
  {
    var request := ConfirmRoot(document, evidence, valid, tx);
    if Respond(s.disk, s.handles[h], request).Make? {
      MakesOnlyWhenStored(s.disk, s.handles[h], request);
      UpToDateHandle(s, h, request);
    }
  }

  // Documents a revision is built from

  /** A drawn revision keeps the base it was given. */
  lemma {:induction false} BaseFixed(s: Store, events: seq<Event>, revision: Id)
    requires revision in s.used && revision in s.bases
    ensures revision in Run(s, events).used && revision in Run(s, events).bases
    ensures Run(s, events).bases[revision] == s.bases[revision]
  {
    if events != [] {
      var front := events[..|events| - 1];
      BaseFixed(s, front, revision);
      StepBase(Run(s, front), events[|events| - 1], revision);
    }
  }

  lemma StepBase(s: Store, e: Event, revision: Id)
    requires revision in s.used && revision in s.bases
    ensures revision in Step(s, e).used && revision in Step(s, e).bases
    ensures Step(s, e).bases[revision] == s.bases[revision]
  {
    if e.Ask? {
      if Proceeds(s, e) {
        AskNotes(s, e, Respond(s.disk, s.handles[e.h], e.request).change);
      } else {
        AskIdle(s, e);
      }
    }
  }

  /** The step commits the revision: the identity stops waiting for it and takes its candidate as its document. */
  ghost predicate CommitsRevision(s: Store, e: Event, id: Id, revision: Id) {
    && id in s.disk.records && Awaits(s.disk.records[id], revision)
    && id in Step(s, e).disk.records
    && e.Ask? && Commits(e.request)
    && BecomesDocument(s.disk.records[id], s.disk.records[id].pending.value, Step(s, e).disk.records[id])
  }

  /**
   No stale base. A revision proposed in one state commits in a later one only if the document is still
   the one it was built from, whatever happened in between, root promotions included.
   */
  lemma NoStaleBase(s: Store, propose: Event, events: seq<Event>, commit: Event, id: Id)
    requires Inv(s) && Proceeds(s, propose) && propose.request.Propose? && s.handles[propose.h].id == id
    requires CommitsRevision(Run(Step(s, propose), events), commit, id, propose.request.revision)
    ensures id in s.disk.records
    ensures Run(Step(s, propose), events).disk.records[id].document == s.disk.records[id].document
  {
    var c := Respond(s.disk, s.handles[propose.h], propose.request).change;
    AskUpdates(s, propose, c);
    AskNotes(s, propose, c);
    var first := Step(s, propose);
    StepKeeps(s, propose);
    BaseFixed(first, events, propose.request.revision);
    RunKeeps(first, events);
    assert BaseKept(Run(first, events), Run(first, events).disk.records[id]);
  }

  // Secrets of revisions in doubt

  /** The step drops the revision an identity waits for. */
  ghost predicate DropsRevision(s: Store, e: Event, id: Id, revision: Id) {
    && id in s.disk.records && Awaits(s.disk.records[id], revision)
    && id in Step(s, e).disk.records
    && e.Ask? && Dropped(s.disk.records[id], s.disk.records[id].pending.value, e.request, Step(s, e).disk.records[id])
  }

  /** The identity still accounts for the secret, as a key of its own or of the revision it waits for. */
  ghost predicate Safeguards(r: Record, revision: Id, ref: SecretRef) {
    || ref in KeyRefs(r.id, r.keys)
    || (Awaits(r, revision) && ref in r.pending.value.refs)
  }

  ghost predicate DroppedWithin(s: Store, events: seq<Event>, id: Id, revision: Id) {
    events != []
    && (var front := events[..|events| - 1];
        DroppedWithin(s, front, id, revision) || DropsRevision(Run(s, front), events[|events| - 1], id, revision))
  }

  ghost predicate CommittedWithin(s: Store, events: seq<Event>, id: Id, revision: Id) {
    events != []
    && (var front := events[..|events| - 1];
        CommittedWithin(s, front, id, revision) || CommitsRevision(Run(s, front), events[|events| - 1], id, revision))
  }

  /** The identity waits for the revision that brings the secret. */
  ghost predicate Brings(d: Disk, id: Id, revision: Id, ref: SecretRef) {
    id in d.records && Awaits(d.records[id], revision) && ref in d.records[id].pending.value.refs
  }

  /** If the identity is there, the secret is one of its own. */
  ghost predicate OwnsIfThere(d: Disk, id: Id, ref: SecretRef) {
    id in d.records ==> ref in KeyRefs(id, d.records[id].keys)
  }

  lemma BroughtStep(s: Store, e: Event, id: Id, revision: Id, ref: SecretRef)
    requires Inv(s) && Brings(s.disk, id, revision, ref)
    ensures || DropsRevision(s, e, id, revision)
            || Brings(Step(s, e).disk, id, revision, ref)
            || (CommitsRevision(s, e, id, revision) && OwnsIfThere(Step(s, e).disk, id, ref))
  {
    StepOnRecord(s, e, id);
    var r, q := s.disk.records[id], Step(s, e).disk.records[id];
    assert Kept(r) && RegistryMatches(s.disk);
    if q != r && q.pending.None? && !DropsRevision(s, e, id, revision) {
      var p := r.pending.value;
      var key :| key in p.newKeys && Sealed(key) && ref == RefOf(r.id, key);
      assert key in q.keys;
    }
  }

  lemma OwnedStep(s: Store, e: Event, id: Id, ref: SecretRef)
    requires Inv(s) && id in s.used && OwnsIfThere(s.disk, id, ref)
    ensures OwnsIfThere(Step(s, e).disk, id, ref)
  {
    if id in s.disk.records {
      StepOnRecord(s, e, id);
      assert RegistryMatches(s.disk);
    } else {
      GoneStaysGone(s, e, id);
    }
  }

  /** The revision is dropped, or still awaited, or it commits and the identity owns the secret until it is removed. */
  lemma {:induction false} RevisionOrOwned(s: Store, events: seq<Event>, id: Id, revision: Id, ref: SecretRef)
    requires Inv(s) && Brings(s.disk, id, revision, ref)
    ensures || DroppedWithin(s, events, id, revision)
            || Brings(Run(s, events).disk, id, revision, ref)
            || (CommittedWithin(s, events, id, revision) && OwnsIfThere(Run(s, events).disk, id, ref))
  {
    if events != [] {
      var front := events[..|events| - 1];
      RevisionOrOwned(s, front, id, revision, ref);
      RunKeeps(s, front);
      if Brings(Run(s, front).disk, id, revision, ref) {
        BroughtStep(Run(s, front), events[|events| - 1], id, revision, ref);
      } else if OwnsIfThere(Run(s, front).disk, id, ref) {
        UsedThroughout(s, front, id);
        OwnedStep(Run(s, front), events[|events| - 1], id, ref);
      }
    }
  }

  /**
   An unknown outcome never loses a key. If a secret of a pending revision is missing at the end of a
   run, some step of the run dropped the revision, by an abort while it was prepared or a rejection on
   evidence strictly ahead of the checkpoint, or the revision committed and the whole identity was
   removed later. Crashes, interrupted recoveries and every other request leave it sealed.
   */
  lemma UncertaintyKeepsSecrets(s: Store, events: seq<Event>, id: Id, revision: Id, ref: SecretRef)
    requires Inv(s) && id in s.disk.records && Awaits(s.disk.records[id], revision)
    requires ref in s.disk.records[id].pending.value.refs
    ensures || DroppedWithin(s, events, id, revision)
            || (CommittedWithin(s, events, id, revision) && id !in Run(s, events).disk.records)
            || ref in Run(s, events).disk.secrets
  {
    RevisionOrOwned(s, events, id, revision, ref);
    RunKeeps(s, events);
    var end := Run(s, events).disk;
    if id in end.records && !DroppedWithin(s, events, id, revision) {
      assert RegistryMatches(end);
      SafeguardedIsSealed(Run(s, events), id, revision, ref);
    }
  }

  lemma SafeguardedIsSealed(s: Store, id: Id, revision: Id, ref: SecretRef)
    requires Inv(s) && id in s.disk.records && Safeguards(s.disk.records[id], revision, ref)
    ensures ref in s.disk.secrets
  {
    var r := s.disk.records[id];
    assert RegistryMatches(s.disk) && WellKept(r);
    assert ref in Owed(r) && ref.identity == id;
  }

  /**
   In every reachable state the sealed secrets are exactly those of the keys in use, and every
   registered DID opens.
   */
  lemma SecretsAreConserved(s: Store, ref: SecretRef, did: Did)
    requires Reachable(s)
    ensures ref in s.disk.secrets
      <==> exists id :: id in s.disk.records && id == ref.identity && ref in Owed(s.disk.records[id])
    ensures did in s.disk.registry.identities ==> Opens(s.disk, did)
  {
    ReachableInv(s);
    if did in s.disk.registry.identities {
      EveryRegisteredDidOpens(s.disk, did);
    }
  }

  /** An identity that waits for a revision cannot be removed. */
  lemma WaitingIdentityStays(s: Store, e: Event, id: Id)
    requires Inv(s) && id in s.disk.records && s.disk.records[id].pending.Some?
    ensures id in Step(s, e).disk.records
  {
    StepOnRecord(s, e, id);
  }

  // Revisions in doubt

  /** A secret of a revision in doubt is lost only to a rejection on evidence that the remote has moved on. */
  lemma DoubtIsSettledByEvidence(s: Store, e: Event, id: Id, ref: SecretRef)
    requires Inv(s) && id in s.disk.records && s.disk.records[id].pending.Some?
    requires InDoubt(s.disk.records[id].pending.value) && ref in s.disk.records[id].pending.value.refs
    requires ref !in Step(s, e).disk.secrets
    ensures e.Ask? && e.request.ReconcileRejected?
    ensures Ahead(s.disk.records[id].checkpoint, CheckpointOf(e.request.evidence))
    ensures s.disk.records[id].checkpoint.document < e.request.evidence.document
         || s.disk.records[id].checkpoint.registry < e.request.evidence.registry
  {
    var revision := s.disk.records[id].pending.value.id;
    BroughtStep(s, e, id, revision, ref);
    WaitingIdentityStays(s, e, id);
    StepKeeps(s, e);
    if !DropsRevision(s, e, id, revision) {
      assert RegistryMatches(Step(s, e).disk);
      SafeguardedIsSealed(Step(s, e), id, revision, ref);
    }
  }

  /** The step takes the revision from doubt back to prepared. */
  ghost predicate Retreats(s: Store, e: Event, id: Id, revision: Id) {
    && id in s.disk.records && Awaits(s.disk.records[id], revision) && InDoubt(s.disk.records[id].pending.value)
    && id in Step(s, e).disk.records && Awaits(Step(s, e).disk.records[id], revision)
    && Step(s, e).disk.records[id].pending.value.state == Prepared
  }

  ghost predicate RetreatedWithin(s: Store, events: seq<Event>, id: Id, revision: Id) {
    events != []
    && (var front := events[..|events| - 1];
        RetreatedWithin(s, front, id, revision) || Retreats(Run(s, front), events[|events| - 1], id, revision))
  }

  /** What takes a revision back: its attempt was rejected, or the remote still shows the old document. */
  predicate Answers(r: Record, request: Request)
    requires r.pending.Some?
  {
    || (&& request.Complete? && request.result.RejectedBeforeAcceptance? && r.pending.value.state == InFlight
        && request.attempt.operation == r.pending.value.id && request.attempt.generation == r.pending.value.generation)
    || (&& request.Reconcile? && r.pending.value.state == Uncertain && !r.did.Web?
        && request.document == r.document && request.evidence.digest == Digest(r.document))
  }

  lemma RetreatRequest(d: Disk, mine: Record, request: Request, c: Change)
    requires UpToDate(d, mine) && Respond(d, mine, request) == Make(c) && mine.pending.Some?
    requires InDoubt(mine.pending.value)
    requires !c.Found? && !c.Delete? && c.record.pending.Some? && c.record.pending.value.state == Prepared
    ensures Answers(mine, request)
  {
    assert Stored(d, mine) == Some(mine);
    match request
    case Complete(session, _, result) =>
      if result.Confirmed? {
        CommittedIs(mine, session.operation, false, Some(result.evidence), result.valid, c.record);
      }
    case Reconcile(session, document, evidence, valid) =>
      SessionCommitsOnEvidence(d, mine, session, document, evidence, valid, c);
    case _ =>
  }

  /** A revision in doubt goes back to prepared only on the remote's word. */
  lemma RetreatIsAnswered(s: Store, e: Event, id: Id, revision: Id)
    requires Inv(s) && Retreats(s, e, id, revision)
    ensures e.Ask? && Answers(s.disk.records[id], e.request)
  {
    StepOnRecord(s, e, id);
    if Proceeds(s, e) {
      var c := Respond(s.disk, s.handles[e.h], e.request).change;
      AskUpdates(s, e, c);
      RetreatRequest(s.disk, s.handles[e.h], e.request, c);
    } else {
      AskIdle(s, e);
    }
  }

  lemma DoubtStep(s: Store, e: Event, id: Id, revision: Id)
    requires Inv(s) && revision in s.used && id in s.disk.records && id in Step(s, e).disk.records
    requires Awaits(Step(s, e).disk.records[id], revision)
    ensures Awaits(s.disk.records[id], revision)
    ensures InDoubt(s.disk.records[id].pending.value) ==>
      InDoubt(Step(s, e).disk.records[id].pending.value) || Retreats(s, e, id, revision)
  {
    StepOnRecord(s, e, id);
    var r, q := s.disk.records[id], Step(s, e).disk.records[id];
    if q != r {
      PendingOrigin(r, e.request, q);
      if r.pending.None? {
        ProposalProceeds(s, e, id);
      }
    }
  }

  /** A revision that is awaited all along stays in doubt until it retreats. */
  lemma {:induction false} StaysInDoubt(s: Store, events: seq<Event>, id: Id, revision: Id)
    requires Inv(s) && id in s.disk.records && Awaits(s.disk.records[id], revision)
    requires InDoubt(s.disk.records[id].pending.value)
    requires id in Run(s, events).disk.records && Awaits(Run(s, events).disk.records[id], revision)
    ensures InDoubt(Run(s, events).disk.records[id].pending.value) || RetreatedWithin(s, events, id, revision)
  {
    if events != [] {
      var front := events[..|events| - 1];
      PresentThroughout(s, events, id);
      RunKeeps(s, front);
      assert BaseKept(s, s.disk.records[id]);
      UsedThroughout(s, front, revision);
      DoubtStep(Run(s, front), events[|events| - 1], id, revision);
      StaysInDoubt(s, front, id, revision);
    }
  }

  /**
   Doubt ends on evidence. Once publication of a revision has begun, whatever happens in between, the
   revision is dropped only because the remote is strictly ahead of the checkpoint, or by an abort
   after some earlier step took it back to prepared.
   */
  lemma DropEndsDoubt(s: Store, events: seq<Event>, e: Event, id: Id, revision: Id)
    requires Inv(s) && id in s.disk.records && Awaits(s.disk.records[id], revision)
    requires InDoubt(s.disk.records[id].pending.value)
    requires DropsRevision(Run(s, events), e, id, revision)
    ensures (&& e.request.ReconcileRejected?
             && Ahead(Run(s, events).disk.records[id].checkpoint, CheckpointOf(e.request.evidence))
             && CheckpointOf(e.request.evidence) != Run(s, events).disk.records[id].checkpoint)
         || (e.request.Abort? && RetreatedWithin(s, events, id, revision))
  {
    StaysInDoubt(s, events, id, revision);
  }

  // Root control without a device

  /** The identity has no device to wrap a root key for, and no root key. */
  predicate Deviceless(r: Record) {
    r.local.None? && r.root == RootAbsent
  }

  lemma CommittedDeviceless(r: Record, revision: Id, fromReconcile: bool, evidence: Evidence, valid: bool, q: Record)
    requires Committed(r, revision, fromReconcile, Some(evidence), valid) == Some(q) && Deviceless(r)
    ensures Deviceless(q)
  {
    CommittedIs(r, revision, fromReconcile, Some(evidence), valid, q);
  }

  lemma AdoptedDeviceless(r: Record, document: Document, evidence: Evidence, sibling: bool, open: bool, q: Record)
    requires Adopt(r, document, evidence, sibling, open) == Adopted(q) && Deviceless(r)
    ensures Deviceless(q)
  {
    JudgedKeys(r, document, Judged(r, document).value);
  }

  lemma RequestDeviceless(d: Disk, mine: Record, request: Request, c: Change)
    requires UpToDate(d, mine) && Respond(d, mine, request) == Make(c) && Deviceless(mine)
    ensures !c.Found? && !c.Delete? && Deviceless(c.record)
  {
    assert Stored(d, mine) == Some(mine);
    match request
    case Complete(session, _, result) =>
      if result.Confirmed? {
        CommittedDeviceless(mine, session.operation, false, result.evidence, result.valid, c.record);
      }
    case Reconcile(session, document, evidence, valid) =>
      SessionCommitsOnEvidence(d, mine, session, document, evidence, valid, c);
      if c.record.pending.None? {
        CommittedDeviceless(mine, session.operation, true, evidence, valid, c.record);
      }
    case AdoptDocument(document, evidence, _, sibling, _) =>
      AdoptedDeviceless(mine, document, evidence, sibling, TransitionOpen(d, mine.id), c.record);
    case _ =>
  }

  lemma StepDeviceless(s: Store, e: Event, id: Id)
    requires Inv(s) && id in s.disk.records && id in Step(s, e).disk.records && Deviceless(s.disk.records[id])
    ensures Deviceless(Step(s, e).disk.records[id])
  {
    StepOnRecord(s, e, id);
    if Changed(s.disk, Step(s, e).disk, id) {
      ProposalProceeds(s, e, id);
      var c := Respond(s.disk, s.handles[e.h], e.request).change;
      AskUpdates(s, e, c);
      RequestDeviceless(s.disk, s.handles[e.h], e.request, c);
    }
  }

  /** An identity without a local device never gains control of a root it does not hold, over any run. */
  lemma {:induction false} DevicelessNeverControls(s: Store, events: seq<Event>, id: Id)
    requires Inv(s) && id in s.disk.records && id in Run(s, events).disk.records && Deviceless(s.disk.records[id])
    ensures Deviceless(Run(s, events).disk.records[id])
  {
    if events != [] {
      var front := events[..|events| - 1];
      PresentThroughout(s, events, id);
      DevicelessNeverControls(s, front, id);
      RunKeeps(s, front);
      StepDeviceless(Run(s, front), events[|events| - 1], id);
    }
  }

  // Publication attempts

  /** A call that completes the attempt passes its checks and is carried out. */
  ghost predicate CompletesAttempt(s: Store, e: Event, attempt: Attempt) {
    Proceeds(s, e) && e.fate.Completes? && e.request.Complete? && e.request.attempt == attempt
  }

  /** The attempt was overtaken: its revision has moved on or is no longer waited for. */
  ghost predicate Spent(s: Store, attempt: Attempt) {
    && attempt.operation in s.used
    && forall id :: id in s.disk.records && Awaits(s.disk.records[id], attempt.operation) ==>
         s.disk.records[id].pending.value.generation > attempt.generation
  }

  /** What a completed attempt matched. */
  lemma AttemptMatches(s: Store, e: Event)
    requires Inv(s) && Proceeds(s, e) && e.request.Complete?
    ensures var mine := s.handles[e.h];
      && mine.id in s.disk.records && s.disk.records[mine.id] == mine
      && Awaits(mine, e.request.attempt.operation)
      && mine.pending.value.generation == e.request.attempt.generation
  {
    MakesOnlyWhenStored(s.disk, s.handles[e.h], e.request);
    UpToDateHandle(s, e.h, e.request);
  }

  lemma SpentRefuses(s: Store, e: Event, attempt: Attempt)
    requires Inv(s) && Spent(s, attempt)
    ensures !CompletesAttempt(s, e, attempt)
  {
    if CompletesAttempt(s, e, attempt) {
      AttemptMatches(s, e);
    }
  }

  /** One identity stopped waiting for the attempt's revision, or waits for it at the next generation. */
  ghost predicate MovedOn(before: Disk, after: Disk, id: Id, attempt: Attempt) {
    && id in before.records && Awaits(before.records[id], attempt.operation)
    && id in after.records && after.records == before.records[id := after.records[id]]
    && (after.records[id].pending.None? || after.records[id].pending.value.generation == attempt.generation + 1)
  }

  /** A completed attempt ends the wait or moves the revision on. */
  lemma CompleteMoves(s: Store, e: Event, attempt: Attempt)
    requires Inv(s) && CompletesAttempt(s, e, attempt)
    ensures MovedOn(s.disk, Step(s, e).disk, s.handles[e.h].id, attempt)
  {
    var mine := s.handles[e.h];
    var c := Respond(s.disk, mine, e.request).change;
    AttemptMatches(s, e);
    AskUpdates(s, e, c);
    CompletedPending(s.disk, mine, e.request, c);
  }

  lemma CompletedPending(d: Disk, mine: Record, request: Request, c: Change)
    requires UpToDate(d, mine) && request.Complete? && Respond(d, mine, request) == Make(c)
    ensures c.Persist?
    ensures c.record.pending.None? || c.record.pending.value.generation == mine.pending.value.generation + 1
  {
    if request.result.Confirmed? {
      CommittedLaw(mine, request.session.operation, false, Some(request.result.evidence), request.result.valid,
                   request, c.record);
    }
  }

  lemma CompleteSpends(s: Store, e: Event, attempt: Attempt)
    requires Inv(s) && CompletesAttempt(s, e, attempt)
    ensures Spent(Step(s, e), attempt)
  {
    CompleteMoves(s, e, attempt);
    UsedGrows(s, e);
    var id := s.handles[e.h].id;
    assert BaseKept(s, s.disk.records[id]);
    forall other | other in Step(s, e).disk.records && Awaits(Step(s, e).disk.records[other], attempt.operation)
      ensures Step(s, e).disk.records[other].pending.value.generation > attempt.generation
    {
      if other != id {
        assert SameWait(s.disk.records[other], s.disk.records[id]);
      }
    }
  }

  lemma SpentOnRecord(s: Store, e: Event, id: Id, attempt: Attempt)
    requires Inv(s) && Spent(s, attempt) && id in s.disk.records && id in Step(s, e).disk.records
    ensures Awaits(Step(s, e).disk.records[id], attempt.operation) ==>
      Step(s, e).disk.records[id].pending.value.generation > attempt.generation
  {
    StepOnRecord(s, e, id);
    var r, q := s.disk.records[id], Step(s, e).disk.records[id];
    if q != r && q.pending.Some? {
      PendingOrigin(r, e.request, q);
      if r.pending.None? {
        ProposalProceeds(s, e, id);
      }
    }
  }

  lemma ProposalProceeds(s: Store, e: Event, id: Id)
    requires e.Ask? && Step(s, e) != s
    ensures Proceeds(s, e)
  {
    if !Proceeds(s, e) {
      AskIdle(s, e);
    }
  }

  lemma SpentStays(s: Store, e: Event, attempt: Attempt)
    requires Inv(s) && Spent(s, attempt)
    ensures Spent(Step(s, e), attempt)
  {
    UsedGrows(s, e);
    forall id | id in Step(s, e).disk.records && Awaits(Step(s, e).disk.records[id], attempt.operation)
      ensures Step(s, e).disk.records[id].pending.value.generation > attempt.generation
    {
      if id in s.disk.records {
        SpentOnRecord(s, e, id, attempt);
      } else {
        NewcomerWaitsForNothing(s, e, id);
      }
    }
  }

  lemma NewcomerWaitsForNothing(s: Store, e: Event, id: Id)
    requires Inv(s) && id !in s.disk.records && id in Step(s, e).disk.records
    ensures Step(s, e).disk.records[id].pending.None?
  {
    if id in s.used {
      GoneStaysGone(s, e, id);
    } else {
      Newcomer(s, e, id);
      BornKept(e.id, e.birth);
    }
  }

  lemma Newcomer(s: Store, e: Event, id: Id)
    requires Inv(s) && id !in s.disk.records && id in Step(s, e).disk.records
    ensures e.Bring? && Adds(s, e, Step(s, e)) && id == e.id
  {
    if e.Ask? {
      if Proceeds(s, e) {
        AskUpdates(s, e, Respond(s.disk, s.handles[e.h], e.request).change);
      } else {
        AskIdle(s, e);
      }
    } else if e.Bring? {
      if CanBring(s, e.m, e.id, e.birth) {
        BringAdds(s, e);
        BornKept(e.id, e.birth);
      }
    } else if e.Remove? || e.Discard? {
      LeavingRemoves(s, e);
    } else {
      RecordsStay(s, e);
    }
  }

  ghost function Completions(s: Store, events: seq<Event>, attempt: Attempt): nat {
    if events == [] then 0
    else
      Completions(s, events[..|events| - 1], attempt)
      + if CompletesAttempt(Run(s, events[..|events| - 1]), events[|events| - 1], attempt) then 1 else 0
  }

  /** A spent attempt never completes, in any continuation. */
  lemma {:induction false} SpentForGood(s: Store, events: seq<Event>, attempt: Attempt)
    requires Inv(s) && Spent(s, attempt)
    ensures Completions(s, events, attempt) == 0 && Spent(Run(s, events), attempt)
  {
    if events != [] {
      var front := events[..|events| - 1];
      SpentForGood(s, front, attempt);
      RunKeeps(s, front);
      SpentRefuses(Run(s, front), events[|events| - 1], attempt);
      SpentStays(Run(s, front), events[|events| - 1], attempt);
    }
  }

  /** Attempt linearity: over any run, at most one call completes a given attempt. */
  lemma {:induction false} AttemptCompletesOnce(s: Store, events: seq<Event>, attempt: Attempt)
    requires Inv(s)
    ensures Completions(s, events, attempt) <= 1
    ensures Completions(s, events, attempt) == 1 ==> Spent(Run(s, events), attempt)
  {
    if events != [] {
      var front, last := events[..|events| - 1], events[|events| - 1];
      AttemptCompletesOnce(s, front, attempt);
      RunKeeps(s, front);
      if Completions(s, front, attempt) == 1 {
        SpentRefuses(Run(s, front), last, attempt);
        SpentStays(Run(s, front), last, attempt);
      } else if CompletesAttempt(Run(s, front), last, attempt) {
        CompleteSpends(Run(s, front), last, attempt);
      }
    }
  }

  /** An attempt from before the revision moved on, to uncertain or back to prepared, never completes it. */
  lemma OvertakenAttemptNeverCompletes(s: Store, events: seq<Event>, id: Id, attempt: Attempt)
    requires Inv(s) && id in s.disk.records && Awaits(s.disk.records[id], attempt.operation)
    requires attempt.generation < s.disk.records[id].pending.value.generation
    ensures Completions(s, events, attempt) == 0
  {
    assert BaseKept(s, s.disk.records[id]);
    forall other | other in s.disk.records && Awaits(s.disk.records[other], attempt.operation)
      ensures s.disk.records[other].pending.value.generation > attempt.generation
    {
      assert SameWait(s.disk.records[other], s.disk.records[id]);
    }
    SpentForGood(s, events, attempt);
  }
}
