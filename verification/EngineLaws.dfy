/**
 What every operation of the engine keeps of the record it works on, and how one record may follow
 another.
 */
module EngineLaws {
  import opened Model
  import opened Writes
  import opened Recovery
  import opened CrashAtomicity
  import opened Candidate
  import opened Adoption
  import opened CandidateConsistency
  import opened Engine

  // What a stored record keeps

  /** A pending revision accounts for its own secrets, brings no root key and is not younger than its record. */
  ghost predicate PendingKept(r: Record, p: Revision) {
    && RefSet(p.refs) == KeyRefs(r.id, p.newKeys)
    && (forall key :: key in p.newKeys ==> key.role != RootControl && !key.erased)
    && p.parent <= r.revision
    && r.state == Active
  }

  /** No retired device is listed by the document or by the candidate of the pending revision. */
  ghost predicate Remembers(r: Record) {
    && r.retiredDevices !! DeviceIds(r.document)
    && (r.pending.Some? ==> r.retiredDevices !! DeviceIds(r.pending.value.candidate))
  }

  ghost predicate Kept(r: Record) {
    && WellKept(r)
    && (forall key :: key in r.keys ==> !key.erased)
    && r.checkpoint.digest == Digest(r.document)
    && r.revision <= r.checkpoint.document
    && (r.state == Enrolling || r.revision == r.checkpoint.document)
    && (r.pending.Some? ==> PendingKept(r, r.pending.value))
    && (r.did.Web? ==> Remembers(r))
  }

  // How a record may follow another

  /** Neither version goes back, and a document version keeps its digest. */
  predicate Ahead(from: Checkpoint, to: Checkpoint) {
    && from.document <= to.document
    && from.registry <= to.registry
    && (to.document == from.document ==> to.digest == from.digest)
  }

  /** The one exception: the first confirmation of a created document, which replaces only its proof. */
  predicate ProofOnly(r: Record, q: Record) {
    && r.initialPending && !q.initialPending
    && r.checkpoint.document == 1 && r.checkpoint.registry == 1
    && q.checkpoint.document == 1 && q.checkpoint.registry == 1
    && r.document.WithoutProof() == q.document.WithoutProof()
  }

  /** `q` is a later form of the record `r`. */
  ghost predicate Evolves(r: Record, q: Record) {
    && q.id == r.id && q.did == r.did && q.fingerprint == r.fingerprint
    && q.generation == r.generation + 1
    && Kept(q)
    && (q.initialPending ==> r.initialPending)
    && (Ahead(r.checkpoint, q.checkpoint) || ProofOnly(r, q))
    && r.retiredDevices <= q.retiredDevices
    && KeyRefs(r.id, r.keys) <= KeyRefs(q.id, q.keys)
    && (r.state == Revoked ==> q.state == Revoked)
  }

  /** Publication of the revision has begun and its fate is not settled. */
  predicate InDoubt(p: Revision) {
    p.state == InFlight || p.state == Uncertain || p.state == Published
  }

  /** The same revision, possibly in another publication state; every move advances its generation. */
  predicate SameRevision(p: Revision, q: Revision) {
    && q == p.(state := q.state, generation := q.generation)
    && (q.generation == p.generation + 1 || q == p)
  }

  ghost predicate Commits(request: Request) {
    (request.Complete? && request.result.Confirmed?) || request.Reconcile?
  }

  /** The revision became the document, with all of its keys, on the very revision it was built from. */
  predicate BecomesDocument(r: Record, p: Revision, q: Record) {
    && q.pending.None? && q.document == p.candidate
    && (forall key :: key in p.newKeys ==> key in q.keys)
    && p.parent == r.revision && InDoubt(p)
  }

  /** The revision was dropped: before publication began, or because the remote has moved on. */
  predicate Dropped(r: Record, p: Revision, request: Request, q: Record) {
    && q == Cleared(r)
    && (|| (request.Abort? && p.state == Prepared)
        || (&& request.ReconcileRejected? && p.state == Uncertain
            && Ahead(r.checkpoint, CheckpointOf(request.evidence))
            && (|| r.checkpoint.document < request.evidence.document
                || r.checkpoint.registry < request.evidence.registry)))
  }

  /** What a request does to the pending revision. */
  ghost predicate RevisionStep(r: Record, request: Request, q: Record) {
    match r.pending
    case None =>
      || q.pending.None?
      || (&& request.Propose? && q.pending.value.id == request.revision && q.pending.value.parent == r.revision
          && q.document == r.document && q.revision == r.revision)
    case Some(p) =>
      || (q.pending.Some? && SameRevision(p, q.pending.value) && Ahead(r.checkpoint, q.checkpoint))
      || (Commits(request) && BecomesDocument(r, p, q))
      || Dropped(r, p, request, q)
  }

  // References of keys

  lemma SameRefs(identity: Id, keys: seq<KeyMetadata>, other: seq<KeyMetadata>)
    requires SameButState(keys, other)
    ensures KeyRefs(identity, other) == KeyRefs(identity, keys)
    ensures (forall key :: key in keys ==> !key.erased) ==> forall key :: key in other ==> !key.erased
    ensures forall key :: key in other ==> exists k :: k in keys && key == k.(state := key.state)
  {
    forall ref
      ensures ref in KeyRefs(identity, other) <==> ref in KeyRefs(identity, keys)
    {
      if ref in KeyRefs(identity, keys) {
        var i :| 0 <= i < |keys| && Sealed(keys[i]) && ref == RefOf(identity, keys[i]);
        assert other[i] in other && Sealed(other[i]) && ref == RefOf(identity, other[i]);
      }
      if ref in KeyRefs(identity, other) {
        var i :| 0 <= i < |other| && Sealed(other[i]) && ref == RefOf(identity, other[i]);
        assert keys[i] in keys && Sealed(keys[i]) && ref == RefOf(identity, keys[i]);
      }
    }
  }

  /** Keys that only changed their state keep what a record keeps of its keys. */
  lemma SameKeysKept(r: Record, other: seq<KeyMetadata>)
    requires SameButState(r.keys, other)
    ensures KeyRefs(r.id, other) == KeyRefs(r.id, r.keys)
    ensures (forall key :: key in r.keys ==> !key.erased) ==> forall key :: key in other ==> !key.erased
    ensures (forall key :: key in r.keys ==> key.role != RootControl)
      ==> forall key :: key in other ==> key.role != RootControl
    ensures (forall key :: key in r.keys && key.role == RootControl ==> !Sealed(key))
      ==> forall key :: key in other && key.role == RootControl ==> !Sealed(key)
  {
    SameRefs(r.id, r.keys, other);
  }

  predicate PlainRole(role: KeyRole) {
    role == RequestSigning || role == DeviceSigning || role == E2eeAgreement
  }

  lemma {:induction false} EditKeysRoles(draft: Draft, record: Record, edits: seq<KeyEdit>)
    requires EditKeys(draft, record, edits).Ok?
    requires forall a :: a in draft.added ==> PlainRole(a.role)
    ensures forall a :: a in EditKeys(draft, record, edits).value.added ==> PlainRole(a.role)
  {
    if edits != [] {
      EditKeysRoles(draft, record, edits[..|edits| - 1]);
    }
  }

  lemma {:induction false} EditDevicesRoles(draft: Draft, record: Record, edits: seq<DeviceEdit>)
    requires EditDevices(draft, record, edits).Ok?
    requires forall a :: a in draft.added ==> PlainRole(a.role)
    ensures forall a :: a in EditDevices(draft, record, edits).value.added ==> PlainRole(a.role)
  {
    if edits != [] {
      EditDevicesRoles(draft, record, edits[..|edits| - 1]);
    }
  }

  lemma {:induction false} AddedExternal(document: Document, added: seq<AddedKey>)
    requires AddedMetadata(document, added).Ok?
    requires forall a :: a in added ==> PlainRole(a.role)
    ensures forall key :: key in AddedMetadata(document, added).value ==>
      PlainRole(key.role) && !key.erased && key.origin == External
  {
    if added != [] {
      AddedExternal(document, added[..|added| - 1]);
    }
  }

  /** The keys a batch brings need exactly the secret of the rotated key. */
  lemma NewKeysRefs(record: Record, spec: UpdateSpec, setting: Setting, draft: Draft, keys: seq<KeyMetadata>)
    requires Build(record, spec, setting) == Ok(draft) && NewKeys(draft.document, draft, spec) == Ok(keys)
    ensures RefSet(PendingRefs(record, spec)) == KeyRefs(record.id, keys)
    ensures forall key :: key in keys ==> key.role != RootControl && !key.erased
  {
    var rotated, keyed, edited := Stages(record, spec, setting);
    EditKeysRoles(Start(record, rotated), record, spec.keys);
    EditDevicesRoles(keyed, record, spec.devices);
    assert draft.added == edited.added;
    AddedExternal(draft.document, draft.added);
    var added := AddedMetadata(draft.document, draft.added).value;
    assert KeyRefs(record.id, added) == {};
    if spec.rotation.Some? {
      var key := keys[|added|];
      assert keys == added + [key];
      KeyRefsAppend(record.id, added, [key]);
      assert key in [key] && KeyRefs(record.id, [key]) == {RefOf(record.id, key)};
    }
  }

  // The operations on a record

  /** A record with a sound pending revision attached. */
  lemma AttachedLaw(r: Record, p: Revision, request: Request, q: Record)
    requires Kept(r) && r.state == Active && r.pending.None?
    requires q == r.(pending := Some(p), generation := r.generation + 1)
    requires PendingKept(r, p) && p.parent == r.revision && request.Propose? && request.revision == p.id
    requires RefSet(p.refs) !! KeyRefs(r.id, r.keys)
    requires r.did.Web? ==> r.retiredDevices !! DeviceIds(p.candidate)
    ensures Evolves(r, q) && RevisionStep(r, request, q) && q.Summary() == r.Summary()
    ensures Owed(q) == Owed(r) + RefSet(p.refs) && RefSet(p.refs) !! Owed(r)
  {
    assert forall ref :: ref in p.refs ==> ref in KeyRefs(r.id, p.newKeys);
  }

  /** A rotation refuses a key id the record already knows. */
  lemma PendingRefsFresh(r: Record, spec: UpdateSpec, setting: Setting)
    requires Build(r, spec, setting).Ok?
    ensures RefSet(PendingRefs(r, spec)) !! KeyRefs(r.id, r.keys)
  {
    var rotated, keyed, edited := Stages(r, spec, setting);
  }

  lemma ProposedLaw(r: Record, revision: Id, spec: UpdateSpec, setting: Setting, q: Record)
    requires Kept(r) && r.state == Active && Proposed(r, revision, spec, setting) == Some(q)
    ensures Evolves(r, q) && RevisionStep(r, Propose(revision, spec, setting), q)
    ensures r.pending.None? && q.pending.Some? && q.Summary() == r.Summary()
    ensures Owed(q) == Owed(r) + RefSet(q.pending.value.refs)
    ensures RefSet(q.pending.value.refs) !! Owed(r)
    ensures |q.pending.value.refs| <= 1
  {
    var draft := Build(r, spec, setting).value;
    var keys := NewKeys(draft.document, draft, spec).value;
    NewKeysRefs(r, spec, setting, draft, keys);
    PendingRefsFresh(r, spec, setting);
    if r.did.Web? {
      CandidateAvoidsRetired(r, spec, setting);
    }
    AttachedLaw(r, q.pending.value, Propose(revision, spec, setting), q);
  }

  lemma MovedLaw(r: Record, revision: Id, expected: PublicationState, next: PublicationState, request: Request,
                 q: Record)
    requires Kept(r) && Moved(r, revision, expected, next) == Some(q)
    ensures Evolves(r, q) && RevisionStep(r, request, q)
    ensures q.Summary() == r.Summary() && Owed(q) == Owed(r)
    ensures q.pending.Some? && q.pending.value.generation == r.pending.value.generation + 1
  {
  }

  lemma RefreshKeeps(r: Record, document: Document)
    ensures var q := RefreshProfiles(r, document); q == r.(local := q.local)
  {
  }

  lemma ObservedLaw(r: Record, next: Document, devices: set<string>)
    requires Observed(r, next) == Some(devices)
    ensures r.retiredDevices <= devices && devices !! DeviceIds(next)
    ensures DeviceIds(r.document) <= devices + DeviceIds(next)
  {
    assert forall id :: id in r.retiredDevices && id in DeviceIds(next) ==> id in r.retiredDevices * DeviceIds(next);
  }

  /** The committed record, field by field. */
  lemma CommittedIs(r: Record, revision: Id, fromReconcile: bool, evidence: Option<Evidence>, valid: bool, q: Record)
    requires Committed(r, revision, fromReconcile, evidence, valid) == Some(q)
    ensures Awaits(r, revision) && CommitAllowed(r, r.pending.value, fromReconcile, evidence)
    ensures evidence.Some? ==> Verified(r.pending.value.candidate, evidence.value, valid)
    ensures evidence.Some? ==>
      InitialProof(r, r.pending.value.candidate, evidence.value) || Progresses(r.checkpoint, evidence.value)
    ensures Observed(r, r.pending.value.candidate) == Some(q.retiredDevices)
    ensures q == r.(
      local := q.local, keys := RetireAll(r.keys, r.pending.value.retiredKids) + r.pending.value.newKeys,
      retiredDevices := q.retiredDevices, document := r.pending.value.candidate, revision := q.checkpoint.document,
      checkpoint := q.checkpoint, pending := None, initialPending := false, generation := r.generation + 1)
    ensures q.checkpoint == if evidence.Some? then CheckpointOf(evidence.value)
                            else Checkpoint(r.revision + 1, r.checkpoint.registry + 1, Digest(q.document))
  {
    var p := r.pending.value;
    RefreshKeeps(r.(keys := RetireAll(r.keys, p.retiredKids)), p.candidate);
  }

  lemma CommittedLaw(r: Record, revision: Id, fromReconcile: bool, evidence: Option<Evidence>, valid: bool,
                     request: Request, q: Record)
    requires Kept(r) && r.state == Active && Committed(r, revision, fromReconcile, evidence, valid) == Some(q)
    requires Commits(request)
    ensures Evolves(r, q) && RevisionStep(r, request, q)
    ensures q.Summary() == r.Summary() && Owed(q) == Owed(r) && q.pending.None?
  {
    CommittedIs(r, revision, fromReconcile, evidence, valid, q);
    CommittedEvolves(r, r.pending.value, q, request);
  }

  lemma CommittedEvolves(r: Record, p: Revision, q: Record, request: Request)
    requires Kept(r) && r.state == Active && r.pending == Some(p) && Commits(request) && InDoubt(p)
    requires p.parent == r.revision
    requires q.checkpoint.digest == Digest(p.candidate)
    requires Ahead(r.checkpoint, q.checkpoint) || ProofOnly(r, q)
    requires Observed(r, p.candidate) == Some(q.retiredDevices)
    requires q == r.(
      local := q.local, keys := RetireAll(r.keys, p.retiredKids) + p.newKeys, retiredDevices := q.retiredDevices,
      document := p.candidate, revision := q.checkpoint.document, checkpoint := q.checkpoint,
      pending := None, initialPending := false, generation := r.generation + 1)
    ensures Evolves(r, q) && RevisionStep(r, request, q)
    ensures q.Summary() == r.Summary() && Owed(q) == Owed(r) && q.pending.None?
  {
    CommittedKeys(r, p, q);
    ObservedLaw(r, p.candidate, q.retiredDevices);
  }

  /** The keys after a commit account for the same secrets. */
  lemma CommittedKeys(r: Record, p: Revision, q: Record)
    requires Kept(r) && r.pending == Some(p) && q.id == r.id && q.pending.None?
    requires q.keys == RetireAll(r.keys, p.retiredKids) + p.newKeys
    ensures Owed(q) == Owed(r) && KeyRefs(r.id, r.keys) <= KeyRefs(q.id, q.keys)
    ensures forall key :: key in q.keys ==> !key.erased
    ensures (forall key :: key in r.keys ==> key.role != RootControl)
      ==> forall key :: key in q.keys ==> key.role != RootControl
    ensures (forall key :: key in r.keys && key.role == RootControl ==> !Sealed(key))
      ==> forall key :: key in q.keys && key.role == RootControl ==> !Sealed(key)
  {
    var keys := RetireAll(r.keys, p.retiredKids);
    SameKeysKept(r, keys);
    KeyRefsAppend(r.id, keys, p.newKeys);
    assert PendingKept(r, p);
  }

  lemma ClearedLaw(r: Record, request: Request)
    requires Kept(r) && r.pending.Some? && Dropped(r, r.pending.value, request, Cleared(r))
    ensures Evolves(r, Cleared(r)) && RevisionStep(r, request, Cleared(r))
  {
  }

  lemma JudgedKeys(r: Record, document: Document, q: Record)
    requires Judged(r, document) == Some(q)
    ensures SameButState(r.keys, q.keys)
    ensures q
      == r.(keys := q.keys, state := q.state, enrollment := q.enrollment, requestEnrollment := q.requestEnrollment)
    ensures q.state == Active || q.state == Revoked
    ensures r.state == Revoked ==> q.state == Revoked
    ensures r.state == Active && LocallyAuthorized(r, document) ==> q == r
  {
  }

  lemma AdoptLaw(r: Record, document: Document, evidence: Evidence, sibling: bool, open: bool, request: Request,
                 q: Record)
    requires Kept(r) && Adopt(r, document, evidence, sibling, open) == Adopted(q) && evidence.digest == Digest(document)
    ensures Evolves(r, q) && RevisionStep(r, request, q)
    ensures Owed(q) == Owed(r)
    ensures sibling ==> q.Summary() == r.Summary()
  {
    var judged := Judged(r, document).value;
    JudgedKeys(r, document, judged);
    RefreshKeeps(judged, document);
    SameKeysKept(r, judged.keys);
    ObservedLaw(r, document, q.retiredDevices);
    assert q.keys == judged.keys;
  }

  /**
   Adoption judges the identity by the document it accepts: an enrollment is confirmed only by a document
   that authorizes it, an active identity is revoked exactly when the document stops authorizing it, and
   nothing revives a revoked one.
   */
  lemma AdoptionJudges(r: Record, document: Document, evidence: Evidence, sibling: bool, open: bool, q: Record)
    requires Adopt(r, document, evidence, sibling, open) == Adopted(q)
    ensures q.state == Revoked <==> r.state == Revoked || (r.state == Active && !LocallyAuthorized(r, document))
    ensures r.state == Enrolling ==>
      && LocallyAuthorized(r, document) && q.state == Active && q.enrollment.None? && q.requestEnrollment.None?
      && forall key :: key in q.keys ==> key.state != KeyPending
    ensures r.state == Active && q.state == Revoked ==>
      forall key :: key in q.keys && IsLocalKey(r, key.kid) ==> key.state == KeyRevoked
    ensures q.document == document && q.checkpoint == CheckpointOf(evidence) && q.revision == evidence.document
  {
    var judged := Judged(r, document).value;
    RefreshKeeps(judged, document);
    assert q.keys == judged.keys && q.state == judged.state;
  }

  predicate Unseen(replays: seq<Replay>, nonce: string) {
    forall i :: 0 <= i < |replays| ==> replays[i].nonce != nonce
  }

  lemma {:induction false} UnseenIff(replays: seq<Replay>, nonce: string)
    ensures FindReplay(replays, nonce).None? <==> Unseen(replays, nonce)
  {
    if replays != [] && replays[0].nonce != nonce {
      UnseenIff(replays[1..], nonce);
      assert forall i :: 1 <= i < |replays| ==> replays[i] == replays[1..][i - 1];
      assert forall i :: 0 <= i < |replays[1..]| ==> replays[1..][i] == replays[i + 1];
    }
  }

  lemma {:induction false} FoundLast(replays: seq<Replay>, replay: Replay)
    requires Unseen(replays, replay.nonce)
    ensures FindReplay(replays + [replay], replay.nonce) == Some(replay)
  {
    if replays != [] {
      assert forall i :: 0 <= i < |replays[1..]| ==> replays[1..][i] == replays[i + 1];
      FoundLast(replays[1..], replay);
      assert (replays + [replay])[1..] == replays[1..] + [replay];
    }
  }

  lemma UnseenSuffix(replays: seq<Replay>, nonce: string, from: nat)
    requires Unseen(replays, nonce) && from <= |replays|
    ensures Unseen(replays[from..], nonce)
  {
  }

  lemma PushedIsFound(replays: seq<Replay>, nonce: string, transfer: string)
    requires FindReplay(replays, nonce).None?
    ensures FindReplay(PushReplay(replays, Replay(nonce, transfer)), nonce) == Some(Replay(nonce, transfer))
  {
    var replay := Replay(nonce, transfer);
    UnseenIff(replays, nonce);
    var from := if |replays| + 1 > MAX_REPLAYS then |replays| + 1 - MAX_REPLAYS else 0;
    UnseenSuffix(replays, nonce, from);
    FoundLast(replays[from..], replay);
    assert PushReplay(replays, replay) == replays[from..] + [replay];
  }

  /**
   A transfer that was imported is remembered: repeating it changes nothing, and its nonce serves no
   other transfer.
   */
  lemma ImportIsRemembered(r: Record, kid: Kid, matches: bool, nonce: string, transfer: string, tx: Id, c: Change,
                           other: string, again: bool)
    requires ImportedRoot(r, kid, matches, nonce, transfer, tx) == Make(c) && (c.Transit? || c.Import?)
    ensures ImportedRoot(c.record, kid, again, nonce, transfer, tx) == NoChange
    ensures other != transfer ==> ImportedRoot(c.record, kid, again, nonce, other, tx) == Refusal
  {
    PushedIsFound(r.replays, nonce, transfer);
  }

  lemma RootImportLaw(r: Record, kid: Kid, matches: bool, nonce: string, transfer: string, tx: Id, request: Request,
                      c: Change)
    requires Kept(r) && r.state == Active && ImportedRoot(r, kid, matches, nonce, transfer, tx) == Make(c)
    ensures c.Transit? || c.Import?
    ensures Evolves(r, c.record) && RevisionStep(r, request, c.record)
    ensures c.Transit? ==> Owed(c.record) == Owed(r)
    ensures c.Import? ==>
      && Owed(c.record) == Owed(r) + {c.ref} && c.ref !in Owed(r) && c.ref.identity == r.id
      && r.root == RootAbsent && RootImported(c.record)
  {
    if c.Import? {
      var at := RootPosition(r.keys, kid);
      var root := c.record.keys[at];
      assert r.keys[at] in r.keys && !Sealed(r.keys[at]);
      assert r.keys == r.keys[..at] + [r.keys[at]] + r.keys[at + 1..];
      assert c.record.keys == r.keys[..at] + [root] + r.keys[at + 1..];
      PlacedRefs(r.id, r.keys[..at], r.keys[at], root, r.keys[at + 1..]);
      assert root in c.record.keys;
    }
  }

  /** Sealing one key adds its reference. */
  lemma PlacedRefs(identity: Id, before: seq<KeyMetadata>, key: KeyMetadata, root: KeyMetadata, after: seq<KeyMetadata>)
    requires !Sealed(key) && Sealed(root)
    ensures KeyRefs(identity, before + [root] + after)
      == KeyRefs(identity, before + [key] + after) + {RefOf(identity, root)}
  {
    KeyRefsAppend(identity, before + [root], after);
    KeyRefsAppend(identity, before, [root]);
    KeyRefsAppend(identity, before + [key], after);
    KeyRefsAppend(identity, before, [key]);
    assert root in [root] && KeyRefs(identity, [root]) == {RefOf(identity, root)};
    assert KeyRefs(identity, [key]) == {};
  }

  lemma PromotedLaw(r: Record, document: Document, evidence: Evidence, tx: Id, request: Request, c: Change)
    requires Kept(r) && Promoted(r, document, evidence, tx) == Make(c) && evidence.digest == Digest(document)
    requires !r.did.Web?
    ensures c.Transit? && Evolves(r, c.record) && RevisionStep(r, request, c.record)
    ensures Owed(c.record) == Owed(r)
  {
    SameKeysKept(r, c.record.keys);
  }

  // Requests against the disk

  /** A handle that is up to date holds the stored record, and its identity is sound. */
  ghost predicate UpToDate(d: Disk, mine: Record) {
    && Consistent(d)
    && mine.id in d.records && d.records[mine.id] == mine
    && Kept(mine)
  }

  /** A change made for a request is one the store can carry out, and its record follows the one before. */
  ghost predicate Lawful(d: Disk, mine: Record, request: Request, c: Change) {
    && Admissible(d, c)
    && !c.Found? && !c.Delete? && c.record.id == mine.id
    && Evolves(mine, c.record)
    && RevisionStep(mine, request, c.record)
  }

  lemma OwedSecrets(d: Disk, mine: Record, ref: SecretRef)
    requires UpToDate(d, mine) && ref.identity == mine.id
    ensures ref in d.secrets <==> ref in Owed(mine)
  {
  }

  lemma ProposeLawful(d: Disk, mine: Record, revision: Id, spec: UpdateSpec, setting: Setting, q: Record)
    requires UpToDate(d, mine) && mine.state == Active && Proposed(mine, revision, spec, setting) == Some(q)
    ensures Lawful(d, mine, Propose(revision, spec, setting), Prepare(q))
  {
    ProposedLaw(mine, revision, spec, setting, q);
    forall ref | ref in q.pending.value.refs
      ensures ref !in d.secrets
    {
      OwedSecrets(d, mine, ref);
    }
  }

  lemma PersistLawful(d: Disk, mine: Record, request: Request, q: Record)
    requires UpToDate(d, mine) && Evolves(mine, q) && RevisionStep(mine, request, q)
    requires q.Summary() == mine.Summary() && Owed(q) == Owed(mine)
    ensures Lawful(d, mine, request, Persist(q))
  {
  }

  lemma TransitLawful(d: Disk, mine: Record, request: Request, tx: Id, q: Record)
    requires UpToDate(d, mine) && Evolves(mine, q) && RevisionStep(mine, request, q)
    requires Owed(q) == Owed(mine)
    ensures Lawful(d, mine, request, Transit(tx, q))
  {
  }

  lemma CleanupLawful(d: Disk, mine: Record, request: Request)
    requires UpToDate(d, mine) && mine.pending.Some? && Dropped(mine, mine.pending.value, request, Cleared(mine))
    ensures Lawful(d, mine, request, Cleanup(Cleared(mine)))
  {
    ClearedLaw(mine, request);
  }

  lemma CompleteLawful(d: Disk, mine: Record, session: Session, attempt: Attempt, result: PublicationResult, c: Change)
    requires UpToDate(d, mine) && CompleteEffect(d, mine, session, attempt, result) == Make(c)
    ensures Lawful(d, mine, Complete(session, attempt, result), c)
  {
    var request := Complete(session, attempt, result);
    match result
    case Confirmed(evidence, valid) =>
      CommittedLaw(mine, session.operation, false, Some(evidence), valid, request, c.record);
      PersistLawful(d, mine, request, c.record);
    case RejectedBeforeAcceptance =>
      MovedLaw(mine, session.operation, InFlight, Prepared, request, c.record);
      PersistLawful(d, mine, request, c.record);
    case Unknown =>
      MovedLaw(mine, session.operation, InFlight, Uncertain, request, c.record);
      PersistLawful(d, mine, request, c.record);
  }

  /**
   A session never reaches the engine's commit without evidence: when the observed document is the
   candidate, the session has already taken the branch that passes the evidence on.
   */
  lemma SessionCommitsOnEvidence(d: Disk, mine: Record, session: Session, document: Document, evidence: Evidence,
                                 valid: bool, c: Change)
    requires ReconcileEffect(d, mine, session, document, evidence, valid) == Make(c)
    requires Current(d, mine).Some? ==> Current(d, mine).value == mine
    ensures c.Persist? && Current(d, mine).Some?
    ensures c.record.pending.None? ==>
      document == session.candidate && c.record.checkpoint == CheckpointOf(evidence)
      && Committed(mine, session.operation, true, Some(evidence), valid) == Some(c.record)
    ensures c.record.pending.Some? ==>
      && !mine.did.Web? && document == mine.document
      && Moved(mine, session.operation, Uncertain, Prepared) == Some(c.record)
  {
    if document == session.candidate {
      var q := Committed(mine, session.operation, true, Some(evidence), valid).value;
      RefreshKeeps(mine.(keys := RetireAll(mine.keys, mine.pending.value.retiredKids)), session.candidate);
      assert q.pending.None?;
    }
  }

  lemma ReconcileLawful(d: Disk, mine: Record, session: Session, document: Document, evidence: Evidence, valid: bool,
                        c: Change)
    requires UpToDate(d, mine) && ReconcileEffect(d, mine, session, document, evidence, valid) == Make(c)
    ensures Lawful(d, mine, Reconcile(session, document, evidence, valid), c)
  {
    var request := Reconcile(session, document, evidence, valid);
    SessionCommitsOnEvidence(d, mine, session, document, evidence, valid, c);
    if c.record.pending.None? {
      CommittedLaw(mine, session.operation, true, Some(evidence), valid, request, c.record);
    } else {
      MovedLaw(mine, session.operation, Uncertain, Prepared, request, c.record);
    }
    PersistLawful(d, mine, request, c.record);
  }

  lemma AdoptLawful(d: Disk, mine: Record, document: Document, evidence: Evidence, valid: bool, sibling: bool, tx: Id,
                    c: Change)
    requires UpToDate(d, mine) && Verified(document, evidence, valid)
    requires AdoptEffect(d, mine, document, evidence, sibling, tx) == Make(c)
    ensures Lawful(d, mine, AdoptDocument(document, evidence, valid, sibling, tx), c)
  {
    var request := AdoptDocument(document, evidence, valid, sibling, tx);
    AdoptLaw(mine, document, evidence, sibling, TransitionOpen(d, mine.id), request, c.record);
    if sibling {
      PersistLawful(d, mine, request, c.record);
    } else {
      TransitLawful(d, mine, request, tx, c.record);
    }
  }

  lemma ImportLawful(d: Disk, mine: Record, envelope: RootEnvelope, authentic: bool, matches: bool, tx: Id, c: Change)
    requires UpToDate(d, mine) && mine.state == Active
    requires ImportedRoot(mine, envelope.root, matches, envelope.nonce, envelope.digest, tx) == Make(c)
    ensures Lawful(d, mine, ImportRootKey(envelope, authentic, matches, tx), c)
  {
    var request := ImportRootKey(envelope, authentic, matches, tx);
    RootImportLaw(mine, envelope.root, matches, envelope.nonce, envelope.digest, tx, request, c);
    if c.Transit? {
      TransitLawful(d, mine, request, c.tx, c.record);
    } else {
      OwedSecrets(d, mine, c.ref);
    }
  }

  lemma PromoteLawful(d: Disk, mine: Record, document: Document, evidence: Evidence, valid: bool, tx: Id, c: Change)
    requires UpToDate(d, mine) && Verified(document, evidence, valid) && mine.fingerprint.RootKey?
    requires Promoted(mine, document, evidence, tx) == Make(c)
    ensures Lawful(d, mine, ConfirmRoot(document, evidence, valid, tx), c)
  {
    var request := ConfirmRoot(document, evidence, valid, tx);
    PromotedLaw(mine, document, evidence, tx, request, c);
    TransitLawful(d, mine, request, c.tx, c.record);
  }

  lemma BeginLawful(d: Disk, mine: Record, session: Session, c: Change)
    requires UpToDate(d, mine) && BeginEffect(d, mine, session) == Make(c)
    ensures Lawful(d, mine, Begin(session), c)
  {
    MovedLaw(mine, session.operation, Prepared, InFlight, Begin(session), c.record);
    PersistLawful(d, mine, Begin(session), c.record);
  }

  /** A change is only made through a handle of the stored generation. */
  lemma MakesOnlyWhenStored(d: Disk, mine: Record, request: Request)
    requires Respond(d, mine, request).Make?
    ensures Stored(d, mine).Some?
  {
  }

  /** Whatever is asked through an up-to-date handle, the change made is lawful. */
  lemma RespondLawful(d: Disk, mine: Record, request: Request, c: Change)
    requires UpToDate(d, mine) && Respond(d, mine, request) == Make(c)
    ensures Lawful(d, mine, request, c)
  {
    match request
    case Propose(revision, spec, setting) => ProposeLawful(d, mine, revision, spec, setting, c.record);
    case Begin(session) => BeginLawful(d, mine, session, c);
    case Complete(session, attempt, result) => CompleteLawful(d, mine, session, attempt, result, c);
    case Reconcile(session, document, evidence, valid) =>
      ReconcileLawful(d, mine, session, document, evidence, valid, c);
    case ReconcileRejected(_, _, _, _) => CleanupLawful(d, mine, request);
    case Abort(_) => CleanupLawful(d, mine, request);
    case AdoptDocument(document, evidence, valid, sibling, tx) =>
      AdoptLawful(d, mine, document, evidence, valid, sibling, tx, c);
    case ImportRootKey(envelope, authentic, matches, tx) => ImportLawful(d, mine, envelope, authentic, matches, tx, c);
    case ConfirmRoot(document, evidence, valid, tx) => PromoteLawful(d, mine, document, evidence, valid, tx, c);
  }
}
