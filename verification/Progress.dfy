/**
 The protocol gets somewhere: from any reachable state, a change that was prepared, published and
 confirmed without interference becomes the document, with its keys and secrets in place.
 */
module Progress {
  import opened Model
  import opened Recovery
  import opened CrashAtomicity
  import opened Candidate
  import opened Adoption
  import opened CandidateConsistency
  import opened Engine
  import opened EngineLaws
  import opened Births
  import opened Runs
  import opened RunLaws
  import opened StoreSafety

  /** The handle holds the stored record. */
  ghost predicate Holds(s: Store, h: nat, r: Record) {
    h in s.handles && s.handles[h] == r && r.id in s.disk.records && s.disk.records[r.id] == r
  }

  lemma HolderIsCurrent(s: Store, h: nat, r: Record)
    requires Inv(s) && Holds(s, h, r)
    ensures Stored(s.disk, r) == Some(r) && Kept(r) && (r.state == Active ==> Current(s.disk, r) == Some(r))
  {
    assert RegistryMatches(s.disk) && Kept(r);
  }

  /** An uninterrupted request leaves the handle with the new stored record. */
  lemma AskHolds(s: Store, h: nat, request: Request, c: Change)
    requires Inv(s) && h in s.handles && Respond(s.disk, s.handles[h], request) == Make(c)
    requires request.Propose? ==> request.revision !in s.used
    ensures Inv(Step(s, Ask(h, request, Completes))) && !c.Delete?
    ensures Holds(Step(s, Ask(h, request, Completes)), h, c.record)
    ensures !request.Propose? ==> Step(s, Ask(h, request, Completes)).used == s.used
  {
    var e := Ask(h, request, Completes);
    AskUpdates(s, e, c);
    AskNotes(s, e, c);
    StepKeeps(s, e);
  }

  // The three records of a publication

  /** The prepared record and its candidate. */
  lemma ProposedIs(r: Record, revision: Id, spec: UpdateSpec, setting: Setting, q: Record)
    requires Proposed(r, revision, spec, setting) == Some(q)
    ensures r.pending.None? && q == r.(pending := q.pending, generation := r.generation + 1)
    ensures Awaits(q, revision) && q.pending.value.parent == r.revision
    ensures q.pending.value.state == Prepared && q.pending.value.generation == 1
    ensures Build(r, spec, setting).Ok? && q.pending.value.candidate == Build(r, spec, setting).value.document
  {
  }

  lemma CanCommit(r: Record, revision: Id, evidence: Evidence, valid: bool)
    requires Awaits(r, revision) && r.pending.value.state == InFlight && r.pending.value.parent == r.revision
    requires Verified(r.pending.value.candidate, evidence, valid) && Progresses(r.checkpoint, evidence)
    requires r.retiredDevices !! DeviceIds(r.pending.value.candidate)
    ensures Committed(r, revision, false, Some(evidence), valid).Some?
  {
    assert r.retiredDevices * DeviceIds(r.pending.value.candidate) == {};
  }

  /** What publishing through one handle asks for. */
  function Publication(h: nat, revision: Id, spec: UpdateSpec, setting: Setting, candidate: Document,
                       evidence: Evidence, valid: bool): seq<Event> {
    var session, attempt := Session(revision, candidate), Attempt(revision, Digest(candidate), 2);
    [Ask(h, Propose(revision, spec, setting), Completes),
     Ask(h, Begin(session), Completes),
     Ask(h, Complete(session, attempt, Confirmed(evidence, valid)), Completes)]
  }

  lemma RunThree(s: Store, a: Event, b: Event, c: Event)
    ensures Run(s, [a, b, c]) == Step(Step(Step(s, a), b), c)
  {
    var all := [a, b, c];
    assert all[..2] == [a, b] && all[..2][..1] == [a] && [a][..0] == [];
    assert Run(s, [a]) == Step(s, a);
    assert Run(s, [a, b]) == Step(Step(s, a), b);
  }

  lemma ProposeHolds(s: Store, h: nat, r: Record, revision: Id, spec: UpdateSpec, setting: Setting, q: Record)
    requires Inv(s) && Holds(s, h, r) && r.state == Active && revision !in s.used
    requires Proposed(r, revision, spec, setting) == Some(q)
    ensures var t := Step(s, Ask(h, Propose(revision, spec, setting), Completes)); Inv(t) && Holds(t, h, q)
  {
    HolderIsCurrent(s, h, r);
    AskHolds(s, h, Propose(revision, spec, setting), Prepare(q));
  }

  lemma BeginHolds(s: Store, h: nat, r: Record, session: Session)
    requires Inv(s) && Holds(s, h, r) && r.state == Active && HoldsSession(r, session)
    requires r.pending.value.state == Prepared
    ensures var t := Step(s, Ask(h, Begin(session), Completes));
      Inv(t) && Holds(t, h, Moved(r, session.operation, Prepared, InFlight).value)
  {
    HolderIsCurrent(s, h, r);
    AskHolds(s, h, Begin(session), Persist(Moved(r, session.operation, Prepared, InFlight).value));
  }

  lemma ConfirmHolds(s: Store, h: nat, r: Record, session: Session, attempt: Attempt, evidence: Evidence, valid: bool,
                     q: Record)
    requires Inv(s) && Holds(s, h, r) && r.state == Active && HoldsSession(r, session)
    requires r.pending.value.state == InFlight
    requires ValidAttempt(r, session, attempt) && ValidEvidence(evidence, session.candidate)
    requires Committed(r, session.operation, false, Some(evidence), valid) == Some(q)
    ensures var t := Step(s, Ask(h, Complete(session, attempt, Confirmed(evidence, valid)), Completes));
      Inv(t) && Holds(t, h, q)
  {
    HolderIsCurrent(s, h, r);
    AskHolds(s, h, Complete(session, attempt, Confirmed(evidence, valid)), Persist(q));
  }

  /**
   Publication goes through. From any reachable state, through a handle that is up to date on an active
   identity: if the batch is accepted and the publication is confirmed with evidence that does not go
   back, then after the three calls the candidate is the stored document, at the evidence's checkpoint,
   nothing is pending, and every managed key of the revision has its secret.
   */
  lemma PublicationGoesThrough(s: Store, h: nat, r: Record, revision: Id, spec: UpdateSpec, setting: Setting,
                               evidence: Evidence, valid: bool, q: Record, key: KeyMetadata)
    requires Reachable(s) && Holds(s, h, r) && r.state == Active && revision !in s.used
    requires Proposed(r, revision, spec, setting) == Some(q)
    requires r.retiredDevices !! DeviceIds(r.document)
    requires Verified(q.pending.value.candidate, evidence, valid) && Progresses(r.checkpoint, evidence)
    ensures var end := Run(s, Publication(h, revision, spec, setting, q.pending.value.candidate, evidence, valid));
      && Inv(end) && r.id in end.disk.records
      && var stored := end.disk.records[r.id];
      && stored.document == q.pending.value.candidate && stored.checkpoint == CheckpointOf(evidence)
      && stored.pending.None?
      && (key in q.pending.value.newKeys ==>
            key in stored.keys && (Sealed(key) ==> RefOf(r.id, key) in end.disk.secrets))
  {
    ReachableInv(s);
    ProposedIs(r, revision, spec, setting, q);
    CandidateAvoidsRetired(r, spec, setting);
    var p := q.pending.value;
    var session := Session(revision, p.candidate);
    var attempt := Attempt(revision, Digest(p.candidate), 2);
    var flying := Moved(q, revision, Prepared, InFlight).value;
    CanCommit(flying, revision, evidence, valid);
    var committed := Committed(flying, revision, false, Some(evidence), valid).value;
    CommittedIs(flying, revision, false, Some(evidence), valid, committed);
    var e1 := Ask(h, Propose(revision, spec, setting), Completes);
    var e2 := Ask(h, Begin(session), Completes);
    var e3 := Ask(h, Complete(session, attempt, Confirmed(evidence, valid)), Completes);
    ProposeHolds(s, h, r, revision, spec, setting, q);
    BeginHolds(Step(s, e1), h, q, session);
    ConfirmHolds(Step(Step(s, e1), e2), h, flying, session, attempt, evidence, valid, committed);
    RunThree(s, e1, e2, e3);
    var end := Step(Step(Step(s, e1), e2), e3);
    if key in p.newKeys && Sealed(key) {
      assert key in committed.keys;
      SafeguardedIsSealed(end, r.id, revision, RefOf(r.id, key));
    }
  }

  /**
   Creation goes through: a manager that has seen the current registry brings in an identity with a new
   DID, and it opens, with the new record in the handle and its secrets sealed.
   */
  lemma CreationGoesThrough(s: Store, m: nat, h: nat, id: Id, birth: Birth, tx: Id, key: KeyMetadata)
    requires Reachable(s) && CanBring(s, m, id, birth)
    ensures var end := Step(s, Bring(m, h, id, birth, tx, Completes));
      var record := Born(id, birth).value;
      && Inv(end) && Holds(end, h, record) && Opens(end.disk, birth.document.did)
      && (key in record.keys && Sealed(key) ==> RefOf(id, key) in end.disk.secrets)
  {
    ReachableInv(s);
    var e := Bring(m, h, id, birth, tx, Completes);
    BringHolds(s, e);
    BornKept(id, birth);
    StoredOpens(Step(s, e), Born(id, birth).value, key);
  }

  lemma BringHolds(s: Store, e: Event)
    requires Inv(s) && e.Bring? && e.fate.Completes? && CanBring(s, e.m, e.id, e.birth)
    ensures Inv(Step(s, e)) && Holds(Step(s, e), e.h, Born(e.id, e.birth).value)
  {
    BringIs(s, e);
    BroughtHolds(s, e, Step(s, e));
  }

  lemma BringIs(s: Store, e: Event)
    requires e.Bring?
    ensures Step(s, e) == BringStep(s, e.m, e.h, e.id, e.birth, e.tx, e.fate)
  {
  }

  lemma BroughtHolds(s: Store, e: Event, end: Store)
    requires Inv(s) && e.Bring? && e.fate.Completes? && CanBring(s, e.m, e.id, e.birth)
    requires end == BringStep(s, e.m, e.h, e.id, e.birth, e.tx, e.fate)
    ensures Inv(end) && Holds(end, e.h, Born(e.id, e.birth).value)
  {
    BornKept(e.id, e.birth);
    BroughtAdds(s, e, end);
    BroughtKeeps(s, e, end);
  }

  /** A stored identity opens, and its managed keys are sealed. */
  lemma StoredOpens(s: Store, r: Record, key: KeyMetadata)
    requires Inv(s) && r.id in s.disk.records && s.disk.records[r.id] == r
    ensures Opens(s.disk, r.did)
    ensures key in r.keys && Sealed(key) ==> RefOf(r.id, key) in s.disk.secrets
  {
    assert RegistryMatches(s.disk);
    EveryRegisteredDidOpens(s.disk, r.did);
    if key in r.keys && Sealed(key) {
      SafeguardedIsSealed(s, r.id, 0, RefOf(r.id, key));
    }
  }

  lemma AdoptResponds(d: Disk, r: Record, document: Document, evidence: Evidence, valid: bool, q: Record)
    requires Stored(d, r) == Some(r) && Verified(document, evidence, valid) && document.did == r.did
    requires Adopt(r, document, evidence, false, TransitionOpen(d, r.id)) == Adopted(q)
    ensures Respond(d, r, AdoptDocument(document, evidence, valid, false, 0)) == Make(Transit(0, q))
  {
  }

  /** A verified document the record accepts is adopted. */
  lemma AdoptHolds(s: Store, h: nat, r: Record, document: Document, evidence: Evidence, valid: bool, q: Record)
    requires Inv(s) && Holds(s, h, r) && Verified(document, evidence, valid) && document.did == r.did
    requires Adopt(r, document, evidence, false, TransitionOpen(s.disk, r.id)) == Adopted(q)
    ensures var t := Step(s, Ask(h, AdoptDocument(document, evidence, valid, false, 0), Completes));
      Inv(t) && Holds(t, h, q) && t.used == s.used
  {
    HolderIsCurrent(s, h, r);
    AdoptResponds(s.disk, r, document, evidence, valid, q);
    AskHolds(s, h, AdoptDocument(document, evidence, valid, false, 0), Transit(0, q));
  }

  /** The record is ready for a root key it has not seen before, wrapped for its local device. */
  predicate CanImport(r: Record, envelope: RootEnvelope) {
    && r.state == Active && r.pending.None? && r.root == RootAbsent && r.rootTransfer.None?
    && FindReplay(r.replays, envelope.nonce).None? && Addressed(r, envelope)
  }

  lemma {:induction false} RootFound(keys: seq<KeyMetadata>, kid: Kid)
    requires FindKey(keys, kid).Some? && FindKey(keys, kid).value.role == RootControl
    ensures RootPosition(keys, kid) < |keys|
  {
    if keys[0].kid != kid {
      RootFound(keys[1..], kid);
    }
  }

  /** The record once a transferred root key is imported. */
  function WithImport(r: Record, envelope: RootEnvelope): Record
    requires RootPosition(r.keys, envelope.root) < |r.keys|
  {
    var at := RootPosition(r.keys, envelope.root);
    r.(keys := r.keys[at := r.keys[at].(origin := Managed, state := KeyPending)], root := RootPending,
       rootTransfer := Some(envelope.digest), replays := PushReplay(r.replays, Replay(envelope.nonce, envelope.digest)),
       generation := r.generation + 1)
  }

  lemma {:induction false} ManagedRootAt(keys: seq<KeyMetadata>, at: nat)
    requires at < |keys| && keys[at].role == RootControl && keys[at].origin == Managed
    ensures ManagedRoot(keys) <= at
  {
    if at > 0 && !(keys[0].role == RootControl && keys[0].origin == Managed) {
      assert keys[1..][at - 1] == keys[at];
      ManagedRootAt(keys[1..], at - 1);
    }
  }

  lemma ImportResponds(d: Disk, r: Record, envelope: RootEnvelope)
    requires Current(d, r) == Some(r) && CanImport(r, envelope)
    ensures RootPosition(r.keys, envelope.root) < |r.keys|
    ensures var ref := RefOf(r.id, r.keys[RootPosition(r.keys, envelope.root)]);
      Respond(d, r, ImportRootKey(envelope, true, true, 0)) == Make(Import(0, ref, WithImport(r, envelope)))
  {
    RootFound(r.keys, envelope.root);
  }

  lemma ImportHolds(s: Store, h: nat, r: Record, envelope: RootEnvelope)
    requires Inv(s) && Holds(s, h, r) && CanImport(r, envelope)
    ensures RootPosition(r.keys, envelope.root) < |r.keys|
    ensures var t := Step(s, Ask(h, ImportRootKey(envelope, true, true, 0), Completes));
      Inv(t) && Holds(t, h, WithImport(r, envelope))
  {
    HolderIsCurrent(s, h, r);
    ImportResponds(s.disk, r, envelope);
    var ref := RefOf(r.id, r.keys[RootPosition(r.keys, envelope.root)]);
    AskHolds(s, h, ImportRootKey(envelope, true, true, 0), Import(0, ref, WithImport(r, envelope)));
  }

  lemma ConfirmRootHolds(s: Store, h: nat, r: Record, document: Document, evidence: Evidence, valid: bool, q: Record)
    requires Inv(s) && Holds(s, h, r) && Verified(document, evidence, valid) && document.did == r.did
    requires RootFingerprint(document).RootKey? && RootFingerprint(document) == r.fingerprint
    requires Promoted(r, document, evidence, 0) == Make(Transit(0, q))
    ensures var t := Step(s, Ask(h, ConfirmRoot(document, evidence, valid, 0), Completes)); Inv(t) && Holds(t, h, q)
  {
    HolderIsCurrent(s, h, r);
    AskHolds(s, h, ConfirmRoot(document, evidence, valid, 0), Transit(0, q));
  }

  /** The record once the promotion is confirmed. */
  function WithRoot(r: Record, document: Document, evidence: Evidence): Record
    requires ManagedRoot(r.keys) < |r.keys|
  {
    var at := ManagedRoot(r.keys);
    r.(keys := r.keys[at := r.keys[at].(state := KeyActive)], root := RootActive, rootTransfer := None,
       document := document, initialPending := false,
       checkpoint := CheckpointOf(evidence), revision := evidence.document, generation := r.generation + 1)
  }

  lemma RunTwo(s: Store, a: Event, b: Event)
    ensures Run(s, [a, b]) == Step(Step(s, a), b)
  {
    assert [a, b][..1] == [a] && [a][..0] == [];
    assert Run(s, [a]) == Step(s, a);
  }

  lemma ImportedCanPromote(r: Record, envelope: RootEnvelope, document: Document, evidence: Evidence)
    requires Kept(r) && RootPosition(r.keys, envelope.root) < |r.keys| && Progresses(r.checkpoint, evidence)
    ensures var imported := WithImport(r, envelope);
      && ManagedRoot(imported.keys) < |imported.keys|
      && Promoted(imported, document, evidence, 0) == Make(Transit(0, WithRoot(imported, document, evidence)))
      && RefOf(r.id, r.keys[RootPosition(r.keys, envelope.root)])
         in KeyRefs(r.id, WithRoot(imported, document, evidence).keys)
  {
    var at, imported := RootPosition(r.keys, envelope.root), WithImport(r, envelope);
    ManagedRootAt(imported.keys, at);
    var q := WithRoot(imported, document, evidence);
    assert r.keys[at] in r.keys && q.keys[at] in q.keys && RefOf(r.id, q.keys[at]) in KeyRefs(r.id, q.keys);
  }

  /**
   A root promotion goes through. From any reachable state, through a handle that is up to date on an
   active identity with a local device and without root control: once the key wrapped for that device
   is imported and the promotion is confirmed with a verified document of the same root, the identity
   controls its root, the document is stored at the evidence's checkpoint, and the root key has its
   secret.
   */
  lemma PromotionGoesThrough(s: Store, h: nat, r: Record, envelope: RootEnvelope,
                             document: Document, evidence: Evidence, valid: bool)
    requires Reachable(s) && Holds(s, h, r) && CanImport(r, envelope)
    requires Verified(document, evidence, valid) && document.did == r.did && Progresses(r.checkpoint, evidence)
    requires RootFingerprint(document).RootKey? && RootFingerprint(document) == r.fingerprint
    ensures RootPosition(r.keys, envelope.root) < |r.keys|
    ensures var imported := WithImport(r, envelope);
      var end := Run(s, [Ask(h, ImportRootKey(envelope, true, true, 0), Completes),
                         Ask(h, ConfirmRoot(document, evidence, valid, 0), Completes)]);
      && Inv(end) && ManagedRoot(imported.keys) < |imported.keys|
      && Holds(end, h, WithRoot(imported, document, evidence))
      && RefOf(r.id, r.keys[RootPosition(r.keys, envelope.root)]) in end.disk.secrets
  {
    ReachableInv(s);
    HolderIsCurrent(s, h, r);
    ImportHolds(s, h, r, envelope);
    ImportedCanPromote(r, envelope, document, evidence);
    var imported := WithImport(r, envelope);
    var first := Ask(h, ImportRootKey(envelope, true, true, 0), Completes);
    var second := Ask(h, ConfirmRoot(document, evidence, valid, 0), Completes);
    ConfirmRootHolds(Step(s, first), h, imported, document, evidence, valid, WithRoot(imported, document, evidence));
    RunTwo(s, first, second);
    var ref := RefOf(r.id, r.keys[RootPosition(r.keys, envelope.root)]);
    SafeguardedIsSealed(Step(Step(s, first), second), r.id, 0, ref);
  }
}
