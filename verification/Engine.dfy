/**
 The operations on a stored identity. Each works on the record a handle holds in memory and on the
 disk, and is refused unless both carry the same generation. What it decides is a change of the
 store, carried out by the journaled writes of `CrashAtomicity`.
 */
module Engine {
  import opened Model
  import opened Recovery
  import opened CrashAtomicity
  import opened Candidate
  import opened Adoption

  /** What an operation decides: to refuse, to succeed without writing, or to make a change. */
  datatype Effect = Refusal | NoChange | Make(change: Change)

  // Document changes

  predicate EmptySpec(spec: UpdateSpec) {
    spec.rotation.None? && spec.keys == [] && spec.devices == [] && spec.services.None?
  }

  function PendingRefs(record: Record, spec: UpdateSpec): seq<SecretRef> {
    if spec.rotation.None? then [] else [SecretRef(record.id, spec.rotation.value.newKid, RequestSigning, 1)]
  }

  /** The record with a new revision prepared from it. */
  function Proposed(record: Record, revision: Id, spec: UpdateSpec, setting: Setting): Option<Record> {
    if EmptySpec(spec) || record.pending.Some? then None
    else match Build(record, spec, setting)
      case Refused => None
      case Ok(draft) => match NewKeys(draft.document, draft, spec)
        case Refused => None
        case Ok(keys) =>
          var pending := Revision(revision, record.revision, draft.document, PendingRefs(record, spec), keys,
                                  RetiredKids(draft, spec), Prepared, 1);
          Some(record.(pending := Some(pending), generation := record.generation + 1))
  }

  /** The record with its pending revision moved from one publication state to another. */
  function Moved(record: Record, revision: Id, expected: PublicationState, next: PublicationState): Option<Record> {
    if !Awaits(record, revision) || record.pending.value.state != expected then None
    else
      var pending := record.pending.value;
      Some(record.(
        pending := Some(pending.(state := next, generation := pending.generation + 1)),
        generation := record.generation + 1))
  }

  /** `observe_devices`: the retired devices once `next` is accepted, unless it lists a retired one. */
  function Observed(record: Record, next: Document): Option<set<string>> {
    if record.retiredDevices * DeviceIds(next) != {} then None
    else Some(record.retiredDevices + (DeviceIds(record.document) - DeviceIds(next)))
  }

  predicate CommitAllowed(record: Record, pending: Revision, fromReconcile: bool, evidence: Option<Evidence>) {
    && (|| pending.state == Published
        || (evidence.Some? && !fromReconcile && pending.state == InFlight)
        || (fromReconcile && pending.state == Uncertain))
    && pending.parent == record.revision
  }

  /** The record with its pending revision committed. */
  function Committed(record: Record, revision: Id, fromReconcile: bool, evidence: Option<Evidence>,
                     valid: bool): Option<Record> {
    if !Awaits(record, revision) then None
    else
      var pending := record.pending.value;
      if !CommitAllowed(record, pending, fromReconcile, evidence) then None
      else if evidence.Some? && !Verified(pending.candidate, evidence.value, valid) then None
      else if evidence.Some? && !InitialProof(record, pending.candidate, evidence.value)
              && !Progresses(record.checkpoint, evidence.value) then None
      else
        var retired := RefreshProfiles(record.(keys := RetireAll(record.keys, pending.retiredKids)), pending.candidate);
        match Observed(record, pending.candidate)
        case None => None
        case Some(devices) =>
          var version := if evidence.Some? then evidence.value.document else record.revision + 1;
          var registry := if evidence.Some? then evidence.value.registry else record.checkpoint.registry + 1;
          Some(retired.(
            keys := retired.keys + pending.newKeys, retiredDevices := devices, document := pending.candidate,
            revision := version, checkpoint := Checkpoint(version, registry, Digest(pending.candidate)),
            pending := None, initialPending := false, generation := record.generation + 1))
  }

  /** The remote has moved on without the pending revision: it can be abandoned although its fate was unknown. */
  predicate Superseded(record: Record, document: Document, evidence: Evidence, valid: bool) {
    && Verified(document, evidence, valid)
    && document.did == record.did
    && MethodFingerprint(document) == record.fingerprint
    && Progresses(record.checkpoint, evidence)
    && LocallyAuthorized(record, document)
    && !(evidence.document == record.checkpoint.document && evidence.registry == record.checkpoint.registry)
  }

  // Adoption of remote documents

  datatype AdoptionOutcome = AdoptRefused | AdoptUnchanged | Adopted(record: Record)

  /** The record once its local authorization has been checked against the document. */
  function Judged(record: Record, document: Document): Option<Record> {
    var authorized := LocallyAuthorized(record, document);
    match record.state
    case Creating => None
    case Enrolling =>
      if !authorized || (record.enrollment.None? && record.requestEnrollment.None?) then None
      else Some(record.(keys := ActivateKeys(record.keys), enrollment := None, requestEnrollment := None,
                        state := Active))
    case Active => if authorized then Some(record) else Some(record.(keys := RevokeKeys(record), state := Revoked))
    case Revoked => Some(record)
  }

  predicate AlreadyAdopted(record: Record, document: Document, evidence: Evidence) {
    && record.state == Active && LocallyAuthorized(record, document)
    && record.checkpoint == CheckpointOf(evidence)
    && !record.initialPending
  }

  function Adopt(record: Record, document: Document, evidence: Evidence, sibling: bool,
                 transitionOpen: bool): AdoptionOutcome {
    if record.pending.Some? then AdoptRefused
    else if sibling && (record.state != Active || record.root != RootActive || transitionOpen) then AdoptRefused
    else if (sibling || !InitialProof(record, document, evidence)) && !Progresses(record.checkpoint, evidence)
    then AdoptRefused
    else if MethodFingerprint(document) != record.fingerprint then AdoptRefused
    else if sibling && !LocallyAuthorized(record, document) then AdoptRefused
    else match Judged(record, document)
      case None => AdoptRefused
      case Some(judged) =>
        if AlreadyAdopted(record, document, evidence) then AdoptUnchanged
        else match Observed(record, document)
          case None => AdoptRefused
          case Some(devices) => Adopted(RefreshProfiles(judged, document).(
            retiredDevices := devices, document := document,
            checkpoint := CheckpointOf(evidence), initialPending := false,
            revision := evidence.document, generation := record.generation + 1))
  }

  // Root transfer

  const MAX_REPLAYS := 256

  function PushReplay(replays: seq<Replay>, replay: Replay): (r: seq<Replay>)
    ensures replay in r && |r| <= |replays| + 1
    ensures |replays| <= MAX_REPLAYS ==> |r| <= MAX_REPLAYS
  {
    var pushed := replays + [replay];
    assert replay == pushed[|pushed| - 1];
    if |pushed| > MAX_REPLAYS then pushed[|pushed| - MAX_REPLAYS..] else pushed
  }

  function FindReplay(replays: seq<Replay>, nonce: string): Option<Replay> {
    if replays == [] then None
    else if replays[0].nonce == nonce then Some(replays[0])
    else FindReplay(replays[1..], nonce)
  }

  /** The position of the first root-control key with the given id, or the number of keys. */
  function RootPosition(keys: seq<KeyMetadata>, kid: Kid): (i: nat)
    ensures i <= |keys|
    ensures i < |keys| ==> keys[i].kid == kid && keys[i].role == RootControl
  {
    if keys == [] || (keys[0].kid == kid && keys[0].role == RootControl) then 0
    else 1 + RootPosition(keys[1..], kid)
  }

  /** A wrapped root key, with the device and the key it is wrapped for and the checkpoint it was made at. */
  datatype RootEnvelope = RootEnvelope(
    root: Kid, device: string, agreement: Kid, checkpoint: Checkpoint, nonce: string, digest: string)

  /**
   The envelope is for the local device of this record, which holds the agreement key, and was made at
   its checkpoint, unless it was imported before.
   */
  predicate Addressed(mine: Record, envelope: RootEnvelope) {
    && mine.local.Some? && mine.local.value.device == envelope.device && mine.local.value.e2ee == envelope.agreement
    && (Replay(envelope.nonce, envelope.digest) in mine.replays || mine.checkpoint == envelope.checkpoint)
    && var root, agreement := FindKey(mine.keys, envelope.root), FindKey(mine.keys, envelope.agreement);
    && root.Some? && root.value.role == RootControl
    && agreement.Some? && agreement.value.role == E2eeAgreement
    && agreement.value.origin == Managed && agreement.value.state == KeyActive
  }

  /** Importing a transferred root key; `matches` is the comparison of the public keys. */
  function ImportedRoot(record: Record, kid: Kid, matches: bool, nonce: string, transfer: string, tx: Id): Effect {
    var seen := FindReplay(record.replays, nonce);
    var replays := PushReplay(record.replays, Replay(nonce, transfer));
    if record.pending.Some? then Refusal
    else if seen.Some? then
      if seen.value.transfer != transfer || record.root == RootAbsent then Refusal else NoChange
    else if record.root == RootActive then
      if !matches then Refusal
      else Make(Transit(tx, record.(replays := replays, generation := record.generation + 1)))
    else if record.rootTransfer.Some? then
      if record.rootTransfer.value == transfer then NoChange else Refusal
    else if record.root != RootAbsent || !matches then Refusal
    else
      var at := RootPosition(record.keys, kid);
      if at == |record.keys| then Refusal
      else
        var root := record.keys[at].(origin := Managed, state := KeyPending);
        Make(Import(tx, RefOf(record.id, root), record.(
          keys := record.keys[at := root], root := RootPending, rootTransfer := Some(transfer), replays := replays,
          generation := record.generation + 1)))
  }

  /** The position of the first managed root-control key, or the number of keys. */
  function ManagedRoot(keys: seq<KeyMetadata>): (i: nat)
    ensures i <= |keys|
    ensures i < |keys| ==> keys[i].role == RootControl && keys[i].origin == Managed
  {
    if keys == [] || (keys[0].role == RootControl && keys[0].origin == Managed) then 0
    else 1 + ManagedRoot(keys[1..])
  }

  /** Confirming a promotion: the remote document is accepted together with the root key. */
  function Promoted(record: Record, document: Document, evidence: Evidence, tx: Id): Effect {
    if record.root == RootActive && record.rootTransfer.None? then NoChange
    else if record.root != RootPending || record.rootTransfer.None? || !Progresses(record.checkpoint, evidence)
    then Refusal
    else
      var at := ManagedRoot(record.keys);
      if at == |record.keys| then Refusal
      else Make(Transit(tx, record.(
        keys := record.keys[at := record.keys[at].(state := KeyActive)], root := RootActive, rootTransfer := None,
        document := document, initialPending := false,
        checkpoint := CheckpointOf(evidence), revision := evidence.document, generation := record.generation + 1)))
  }

  // Requests

  /** A session over a pending revision: the operation it stands for and the candidate it prepared. */
  datatype Session = Session(operation: Id, candidate: Document)

  datatype Attempt = Attempt(operation: Id, digest: Digest, generation: nat)

  datatype PublicationResult =
    | Confirmed(evidence: Evidence, valid: bool)
    | RejectedBeforeAcceptance
    | Unknown

  datatype Request =
    | Propose(revision: Id, spec: UpdateSpec, setting: Setting)
    | Begin(session: Session)
    | Complete(session: Session, attempt: Attempt, result: PublicationResult)
    | Reconcile(session: Session, document: Document, evidence: Evidence, valid: bool)
    | ReconcileRejected(session: Session, document: Document, evidence: Evidence, valid: bool)
    | Abort(revision: Id)
    | AdoptDocument(document: Document, evidence: Evidence, valid: bool, sibling: bool, tx: Id)
    | ImportRootKey(envelope: RootEnvelope, authentic: bool, matches: bool, tx: Id)
    | ConfirmRoot(document: Document, evidence: Evidence, valid: bool, tx: Id)

  /** The stored record, if the handle is up to date. */
  function Stored(d: Disk, mine: Record): Option<Record> {
    if CanRead(d, mine.id) && d.records[mine.id].generation == mine.generation then Some(d.records[mine.id]) else None
  }

  /** `current_record_for_mutation`: document changes also need an active identity. */
  function Current(d: Disk, mine: Record): Option<Record> {
    if Stored(d, mine).Some? && Stored(d, mine).value.state == Active then Stored(d, mine) else None
  }

  /** The pending revision a session stands for, as the handle sees it. */
  predicate HoldsSession(mine: Record, session: Session) {
    Awaits(mine, session.operation) && Digest(mine.pending.value.candidate) == Digest(session.candidate)
  }

  predicate ValidAttempt(mine: Record, session: Session, attempt: Attempt)
    requires HoldsSession(mine, session)
  {
    && attempt.operation == session.operation
    && attempt.digest == Digest(session.candidate)
    && attempt.generation == mine.pending.value.generation
  }

  predicate ValidEvidence(evidence: Evidence, document: Document) {
    evidence.document != 0 && evidence.registry != 0 && evidence.digest == Digest(document)
  }

  function Persisting(record: Option<Record>): Effect {
    if record.None? then Refusal else Make(Persist(record.value))
  }

  function CompleteEffect(d: Disk, mine: Record, session: Session, attempt: Attempt,
                          result: PublicationResult): Effect {
    if !HoldsSession(mine, session) || !ValidAttempt(mine, session, attempt) then Refusal
    else
      var state := mine.pending.value.state;
      var current := Current(d, mine);
      match result
      case Confirmed(evidence, valid) =>
        if !ValidEvidence(evidence, session.candidate) || (state != InFlight && state != Published) || current.None?
        then Refusal
        else Persisting(Committed(current.value, session.operation, false, Some(evidence), valid))
      case RejectedBeforeAcceptance =>
        if state != InFlight || current.None? then Refusal
        else Persisting(Moved(current.value, session.operation, InFlight, Prepared))
      case Unknown =>
        if state != InFlight || current.None? then Refusal
        else Persisting(Moved(current.value, session.operation, InFlight, Uncertain))
  }

  /** The engine's own reconciliation, which can commit without evidence. */
  function ReconcileUpdate(d: Disk, mine: Record, revision: Id, document: Document, valid: bool): Effect {
    if !Awaits(mine, revision) || mine.pending.value.state != Uncertain then Refusal
    else if document.did != mine.did || !valid then Refusal
    else
      var current := Current(d, mine);
      if Digest(document) == Digest(mine.pending.value.candidate) then
        if current.None? then Refusal else Persisting(Committed(current.value, revision, true, None, valid))
      else if Digest(document) == Digest(mine.document) then
        if mine.did.Web? then NoChange
        else if current.None? then Refusal
        else Persisting(Moved(current.value, revision, Uncertain, Prepared))
      else Refusal
  }

  function ReconcileEffect(d: Disk, mine: Record, session: Session, document: Document, evidence: Evidence,
                           valid: bool): Effect {
    if !ValidEvidence(evidence, document) || !HoldsSession(mine, session) then Refusal
    else if mine.pending.value.state != Uncertain then Refusal
    else if document == session.candidate then
      if Current(d, mine).None? then Refusal
      else Persisting(Committed(Current(d, mine).value, session.operation, true, Some(evidence), valid))
    else ReconcileUpdate(d, mine, session.operation, document, valid)
  }

  function BeginEffect(d: Disk, mine: Record, session: Session): Effect {
    if !HoldsSession(mine, session) then Refusal
    else match mine.pending.value.state
      case Prepared =>
        if Current(d, mine).None? then Refusal
        else Persisting(Moved(Current(d, mine).value, session.operation, Prepared, InFlight))
      case InFlight => NoChange
      case Published => NoChange
      case Uncertain => Refusal
  }

  predicate IsOpen(state: TransitionState) {
    state == TPrepared || state == TInFlight || state == TUncertain
  }

  /** Some open transition journal names the identity. */
  predicate TransitionOpen(d: Disk, id: Id) {
    exists op :: op in d.transitions && IsOpen(d.transitions[op].state)
      && (d.transitions[op].predecessorId == id || d.transitions[op].successorId == id)
  }

  function AdoptEffect(d: Disk, record: Record, document: Document, evidence: Evidence, sibling: bool, tx: Id): Effect {
    match Adopt(record, document, evidence, sibling, TransitionOpen(d, record.id))
    case AdoptRefused => Refusal
    case AdoptUnchanged => NoChange
    case Adopted(next) => if sibling then Make(Persist(next)) else Make(Transit(tx, next))
  }

  /** What the store does about a request made through a handle that holds `mine`. */
  function Respond(d: Disk, mine: Record, request: Request): Effect {
    match request
    case Propose(revision, spec, setting) =>
      if Current(d, mine).None? || Proposed(Current(d, mine).value, revision, spec, setting).None? then Refusal
      else Make(Prepare(Proposed(Current(d, mine).value, revision, spec, setting).value))
    case Begin(session) => BeginEffect(d, mine, session)
    case Complete(session, attempt, result) => CompleteEffect(d, mine, session, attempt, result)
    case Reconcile(session, document, evidence, valid) => ReconcileEffect(d, mine, session, document, evidence, valid)
    case ReconcileRejected(session, document, evidence, valid) =>
      if !ValidEvidence(evidence, document) || !HoldsSession(mine, session) || Current(d, mine).None? then Refusal
      else
        var record := Current(d, mine).value;
        if !Awaits(record, session.operation) || record.pending.value.state != Uncertain then Refusal
        else if !Superseded(record, document, evidence, valid) then Refusal
        else Make(Cleanup(Cleared(record)))
    case Abort(revision) =>
      if Current(d, mine).None? then Refusal
      else
        var record := Current(d, mine).value;
        if !Awaits(record, revision) || record.pending.value.state != Prepared then Refusal
        else Make(Cleanup(Cleared(record)))
    case AdoptDocument(document, evidence, valid, sibling, tx) =>
      if !Verified(document, evidence, valid) || document.did != mine.did || Stored(d, mine).None? then Refusal
      else AdoptEffect(d, Stored(d, mine).value, document, evidence, sibling, tx)
    case ImportRootKey(envelope, authentic, matches, tx) =>
      if !authentic || !Addressed(mine, envelope) || Current(d, mine).None? then Refusal
      else ImportedRoot(Current(d, mine).value, envelope.root, matches, envelope.nonce, envelope.digest, tx)
    case ConfirmRoot(document, evidence, valid, tx) =>
      if !Verified(document, evidence, valid) || document.did != mine.did then Refusal
      else if !RootFingerprint(document).RootKey? || RootFingerprint(document) != mine.fingerprint then Refusal
      else if Stored(d, mine).None? then Refusal
      else Promoted(Stored(d, mine).value, document, evidence, tx)
  }
}
