/**
 The values the identity store keeps: DID documents, key metadata, identity records, journals and
 the disk that holds them.

 Random identifiers are naturals (only equality and order matter), key ids are already canonical,
 and a digest is the document it was taken of, wrapped, so that it is injective by construction.
 */
module Model {

  datatype Option<+T> = None | Some(value: T)

  type Id = nat
  type Kid = string

  datatype Did = Wba(name: string) | Web(name: string)

  datatype PublicKey = Ed25519(bytes: string) | X25519(bytes: string) | OtherKey(bytes: string)

  datatype KeyRole = RootControl | DeviceSigning | RequestSigning | E2eeSigning | E2eeAgreement

  datatype KeyOrigin = Managed | External

  datatype KeyState = KeyPending | KeyActive | KeyRetired | KeyRevoked

  datatype KeyMetadata = KeyMetadata(
    kid: Kid, role: KeyRole, origin: KeyOrigin, state: KeyState, erased: bool, version: nat, publicKey: PublicKey)

  datatype SecretRef = SecretRef(identity: Id, kid: Kid, role: KeyRole, version: nat)

  // DID documents

  datatype Method = Method(id: Kid, publicKey: PublicKey)

  datatype Device = Device(id: string, signing: Kid, e2ee: Kid, profiles: seq<string>)

  datatype Service = Service(id: string, kind: string, endpoint: string)

  datatype Proof = Proof(kid: Kid, domain: Option<string>, challenge: nat)

  datatype Document = Document(
    did: Did, methods: seq<Method>,
    authentication: seq<Kid>, assertion: seq<Kid>, agreement: seq<Kid>,
    manifest: Option<seq<Device>>, services: seq<Service>, proof: Option<Proof>)
  {
    function Devices(): seq<Device> {
      if manifest.Some? then manifest.value else []
    }

    function WithoutProof(): Document {
      this.(proof := None)
    }
  }

  datatype Digest = Digest(of: Document)

  /** The first method with the given id, as the document resolver finds it. */
  function FindMethod(methods: seq<Method>, kid: Kid): (r: Option<Method>)
    ensures r.Some? <==> exists i :: 0 <= i < |methods| && methods[i].id == kid
    ensures r.Some? ==> r.value in methods && r.value.id == kid
  {
    if methods == [] then None
    else if methods[0].id == kid then Some(methods[0])
    else FindMethod(methods[1..], kid)
  }

  function DeviceIds(document: Document): set<string> {
    set device | device in document.Devices() :: device.id
  }

  /** The root public key a document is bound to; a Web document has none. */
  datatype Fingerprint = NoRoot | RootKey(key: PublicKey) | Unbound

  function RootFingerprint(document: Document): Fingerprint {
    if document.proof.None? then Unbound
    else match FindMethod(document.methods, document.proof.value.kid)
      case Some(Method(_, Ed25519(bytes))) => RootKey(Ed25519(bytes))
      case _ => Unbound
  }

  function MethodFingerprint(document: Document): Fingerprint {
    if document.did.Web? then NoRoot else RootFingerprint(document)
  }

  // Identity records

  datatype IdentityState = Creating | Enrolling | Active | Revoked

  datatype RootCapability = RootAbsent | RootPending | RootActive

  datatype PublicationState = Prepared | InFlight | Uncertain | Published

  datatype Checkpoint = Checkpoint(document: nat, registry: nat, digest: Digest)

  datatype LocalAuthorization = LocalAuthorization(device: string, signing: Kid, e2ee: Kid, profiles: seq<string>)

  datatype Revision = Revision(
    id: Id, parent: nat, candidate: Document, refs: seq<SecretRef>, newKeys: seq<KeyMetadata>,
    retiredKids: seq<Kid>, state: PublicationState, generation: nat)

  datatype Replay = Replay(nonce: string, transfer: string)

  datatype Record = Record(
    id: Id, did: Did, state: IdentityState, revision: nat, generation: nat,
    document: Document, keys: seq<KeyMetadata>,
    root: RootCapability, fingerprint: Fingerprint, checkpoint: Checkpoint, initialPending: bool,
    local: Option<LocalAuthorization>, localRequestKid: Option<Kid>,
    enrollment: Option<Id>, requestEnrollment: Option<Id>,
    rootTransfer: Option<string>, replays: seq<Replay>,
    retiredDevices: set<string>, pending: Option<Revision>)
  {
    function Summary(): IdentitySummary {
      IdentitySummary(id, did, state, root)
    }
  }

  /** What the registry repeats of a record. */
  datatype IdentitySummary = IdentitySummary(id: Id, did: Did, state: IdentityState, root: RootCapability)

  /** A managed key whose material has not been erased has a sealed secret. */
  predicate Sealed(key: KeyMetadata) {
    key.origin == Managed && !key.erased
  }

  function RefOf(identity: Id, key: KeyMetadata): SecretRef {
    SecretRef(identity, key.kid, key.role, key.version)
  }

  ghost function KeyRefs(identity: Id, keys: seq<KeyMetadata>): set<SecretRef> {
    set key | key in keys && Sealed(key) :: RefOf(identity, key)
  }

  /** The secrets a record accounts for: its own managed keys and those of its pending revision. */
  ghost function Owed(record: Record): set<SecretRef> {
    KeyRefs(record.id, record.keys) + (if record.pending.Some? then set ref | ref in record.pending.value.refs else {})
  }

  /** `read_identity` refuses a Web record that carries any root-control trace. */
  predicate Readable(record: Record) {
    record.did.Web? ==>
      && record.fingerprint == NoRoot
      && record.root == RootAbsent
      && forall key :: key in record.keys ==> key.role != RootControl
  }

  // Journals and the disk

  datatype JournalKind = CreateIdentity | TransitionState | ImportRoot | DeleteNamespace

  datatype Journal = Journal(kind: JournalKind, transaction: Id, identity: Id, did: Did, refs: seq<SecretRef>)

  datatype UpdateKind = PrepareUpdate | CleanupUpdate

  datatype UpdateJournal = UpdateJournal(kind: UpdateKind, revision: Id, identity: Id, refs: seq<SecretRef>)

  datatype TransitionState = TPrepared | TInFlight | TUncertain | TCommitted | TAborted

  datatype Transition = Transition(
    operation: string, predecessorDid: Did, predecessorId: Id, predecessorGeneration: nat,
    successorDid: Did, successorId: Id, successorGeneration: nat,
    trusted: Document, predecessor: Document, successor: Document, assurance: string,
    state: TransitionState, generation: nat)

  datatype Registry = Registry(generation: nat, identities: map<Did, IdentitySummary>)

  datatype Disk = Disk(
    registry: Registry, records: map<Id, Record>, secrets: set<SecretRef>,
    journals: map<Id, Journal>, updates: map<Id, UpdateJournal>, transitions: map<string, Transition>)

  /** Reading an identity fails when the file is missing, misnamed or not readable. */
  predicate CanRead(disk: Disk, id: Id) {
    id in disk.records && disk.records[id].id == id && Readable(disk.records[id])
  }
}
