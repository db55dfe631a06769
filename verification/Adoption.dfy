/** The checks a verified remote document has to pass before the store accepts it. */
module Adoption {
  import opened Model
  import opened Candidate

  /** What a host has verified about a remote document. */
  datatype Evidence = Evidence(document: nat, registry: nat, digest: Digest)

  /** The digest is the document's, the versions count from one, and the document validators agree. */
  predicate Verified(document: Document, evidence: Evidence, valid: bool) {
    evidence.document != 0 && evidence.registry != 0 && Digest(document) == evidence.digest && valid
  }

  /** A checkpoint never goes back, and a version stands for one document only. */
  predicate Progresses(current: Checkpoint, next: Evidence) {
    && current.document <= next.document
    && current.registry <= next.registry
    && (next.document == current.document ==> next.digest == current.digest)
  }

  function CheckpointOf(evidence: Evidence): Checkpoint {
    Checkpoint(evidence.document, evidence.registry, evidence.digest)
  }

  /** The first confirmation of a locally created document may bring another proof, and nothing else. */
  predicate InitialProof(record: Record, document: Document, evidence: Evidence) {
    && record.initialPending
    && record.state == Active
    && record.root == RootActive
    && record.revision == 1
    && evidence.document == 1 && evidence.registry == 1
    && record.checkpoint.document == 1 && record.checkpoint.registry == 1
    && record.document.WithoutProof() == document.WithoutProof()
  }

  // Local authorization

  predicate KeyMatches(document: Document, key: KeyMetadata) {
    match FindMethod(document.methods, key.kid)
    case None => false
    case Some(m) => m.publicKey == key.publicKey
  }

  const BINDING_PROFILE := "anp.core.binding.v1"
  const DISCOVERY_PROFILE := "anp.identity.discovery.v1"
  const GROUP_E2EE_PROFILE := "anp.group.e2ee.v2"
  const GROUP_BASE_PROFILE := "anp.group.base.v2"

  /** Equal, or the one additive upgrade that is not a revocation. */
  predicate CompatibleProfiles(before: seq<string>, after: seq<string>) {
    || before == after
    || (&& BINDING_PROFILE in before && DISCOVERY_PROFILE in before && GROUP_E2EE_PROFILE in before
        && GROUP_BASE_PROFILE !in before
        && after == before + [GROUP_BASE_PROFILE])
  }

  /** Exactly one device of the manifest has the given id. */
  predicate SoleDevice(devices: seq<Device>, id: string) {
    var at := DevicePosition(devices, id);
    at < |devices| && DevicePosition(devices[at + 1..], id) == |devices| - at - 1
  }

  predicate LocalMatches(keys: seq<KeyMetadata>, document: Document, local: LocalAuthorization) {
    var signing, e2ee := FindKey(keys, local.signing), FindKey(keys, local.e2ee);
    && signing.Some? && KeyMatches(document, signing.value)
    && e2ee.Some? && KeyMatches(document, e2ee.value)
    && local.signing in document.authentication
    && local.signing in document.assertion
    && local.e2ee in document.agreement
    && document.manifest.Some?
    && SoleDevice(document.Devices(), local.device)
    && var device := document.Devices()[DevicePosition(document.Devices(), local.device)];
    && device.signing == local.signing
    && device.e2ee == local.e2ee
    && CompatibleProfiles(local.profiles, device.profiles)
  }

  function FindRequestKey(keys: seq<KeyMetadata>, kid: Kid): Option<KeyMetadata> {
    if keys == [] then None
    else if keys[0].kid == kid && keys[0].role == RequestSigning then Some(keys[0])
    else FindRequestKey(keys[1..], kid)
  }

  predicate RequestMatches(keys: seq<KeyMetadata>, document: Document, kid: Kid) {
    var key := FindRequestKey(keys, kid);
    && key.Some? && KeyMatches(document, key.value)
    && kid in document.authentication
    && kid !in document.assertion
  }

  /** The document still authorizes what this store holds keys for. */
  predicate LocallyAuthorized(record: Record, document: Document) {
    if record.local.Some? then LocalMatches(record.keys, document, record.local.value)
    else if record.localRequestKid.Some? then RequestMatches(record.keys, document, record.localRequestKid.value)
    else true
  }

  /** A compatible upgrade of the local device's profiles is remembered. */
  function RefreshProfiles(record: Record, document: Document): Record {
    if record.local.None? || !LocalMatches(record.keys, document, record.local.value) then record
    else
      var device := document.Devices()[DevicePosition(document.Devices(), record.local.value.device)];
      record.(local := Some(record.local.value.(profiles := device.profiles)))
  }

  /** Keys that were pending become active once an enrollment is confirmed. */
  function ActivateKeys(keys: seq<KeyMetadata>): (r: seq<KeyMetadata>)
    ensures |r| == |keys|
    ensures forall i :: 0 <= i < |keys| ==> r[i] == keys[i].(state := r[i].state) && r[i].state != KeyPending
  {
    seq(|keys|, i requires 0 <= i < |keys| =>
      if keys[i].state == KeyPending then keys[i].(state := KeyActive) else keys[i])
  }

  /** The key is one of those this store holds for the document's local device or request signer. */
  predicate IsLocalKey(record: Record, kid: Kid) {
    if record.local.Some? then kid == record.local.value.signing || kid == record.local.value.e2ee
    else record.localRequestKid == Some(kid)
  }

  /** The local keys are revoked once the remote document stops authorizing them. */
  function RevokeKeys(record: Record): (r: seq<KeyMetadata>)
    ensures |r| == |record.keys|
    ensures forall i :: 0 <= i < |r| ==> r[i] == record.keys[i].(state := r[i].state)
    ensures forall i :: 0 <= i < |r| && IsLocalKey(record, r[i].kid) ==> r[i].state == KeyRevoked
  {
    seq(|record.keys|, i requires 0 <= i < |record.keys| =>
      if IsLocalKey(record, record.keys[i].kid) then record.keys[i].(state := KeyRevoked) else record.keys[i])
  }
}
