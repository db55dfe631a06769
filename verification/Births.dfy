/**
 How an identity enters the store, by creation or by one of the two enrollments, and how it leaves it.
 */
module Births {
  import opened Model
  import opened Candidate
  import opened Adoption
  import opened CandidateConsistency
  import opened EngineLaws

  datatype Birth =
    /** A created identity: the built document, the metadata of its keys and its inferred local device. */
    | Creation(document: Document, keys: seq<KeyMetadata>, device: Option<LocalAuthorization>)
    /** A device enrolled into a verified remote document that does not list its keys yet. */
    | DeviceEnrollment(document: Document, evidence: Evidence, valid: bool, enrollment: Id,
                       local: LocalAuthorization, signingKey: PublicKey, e2eeKey: PublicKey)
    /** A request-signing key enrolled into a verified remote document. */
    | RequestEnrollment(document: Document, evidence: Evidence, valid: bool, enrollment: Id,
                        kid: Kid, requestKey: PublicKey)

  /** What building a document guarantees about the metadata of its keys. */
  ghost predicate SoundBuild(document: Document, keys: seq<KeyMetadata>) {
    && Distinct(KidList(keys))
    && (forall key :: key in keys ==> key.version == 1 && !key.erased && key.state == KeyActive)
    && (document.did.Web? ==> forall key :: key in keys ==> key.role != RootControl)
  }

  function NewRecord(id: Id, document: Document, keys: seq<KeyMetadata>, root: RootCapability,
                     checkpoint: Checkpoint, local: Option<LocalAuthorization>): Record {
    Record(id, document.did, Creating, 1, 1, document, keys, root, MethodFingerprint(document), checkpoint, false,
           local, None, None, None, None, [], {}, None)
  }

  function NewKey(kid: Kid, role: KeyRole, publicKey: PublicKey): KeyMetadata {
    KeyMetadata(kid, role, Managed, KeyPending, false, 1, publicKey)
  }

  /** The external root key of a remote document; a Web document has none. */
  function RootKeys(document: Document): Result<seq<KeyMetadata>> {
    if document.did.Web? then Ok([])
    else if document.proof.None? then Refused
    else match Metadata(document, document.proof.value.kid, RootControl, External)
      case Refused => Refused
      case Ok(key) => Ok([key])
  }

  predicate ValidEnrollment(local: LocalAuthorization) {
    && !Blank(local.device) && Trimmed(local.device)
    && local.profiles != []
    && forall i :: 0 <= i < |local.profiles| ==> !Blank(local.profiles[i])
  }

  /** The record an identity starts with, in the state its creation leaves it in. */
  ghost function Born(id: Id, birth: Birth): Option<Record> {
    match birth
    case Creation(document, keys, device) =>
      if !SoundBuild(document, keys) then None
      else
        var root := if document.did.Web? then RootAbsent else RootActive;
        Some(NewRecord(id, document, keys, root, Checkpoint(1, 1, Digest(document)), device).(
          state := Active, initialPending := true))
    case DeviceEnrollment(document, evidence, valid, enrollment, local, signingKey, e2eeKey) =>
      if !Verified(document, evidence, valid) || !ValidEnrollment(local) || local.signing == local.e2ee then None
      else if HasMethod(document.methods, local.signing) || HasMethod(document.methods, local.e2ee) then None
      else if RootKeys(document).Refused? then None
      else
        var keys := RootKeys(document).value
          + [NewKey(local.signing, DeviceSigning, signingKey), NewKey(local.e2ee, E2eeAgreement, e2eeKey)];
        Some(NewRecord(id, document, keys, RootAbsent, CheckpointOf(evidence), Some(local)).(
          state := Enrolling, enrollment := Some(enrollment)))
    case RequestEnrollment(document, evidence, valid, enrollment, kid, requestKey) =>
      if !Verified(document, evidence, valid) || HasMethod(document.methods, kid) then None
      else if RootKeys(document).Refused? then None
      else
        var keys := RootKeys(document).value + [NewKey(kid, RequestSigning, requestKey)];
        Some(NewRecord(id, document, keys, RootAbsent, CheckpointOf(evidence), None).(
          state := Enrolling, localRequestKid := Some(kid), requestEnrollment := Some(enrollment)))
  }

  lemma BornKept(id: Id, birth: Birth)
    requires Born(id, birth).Some?
    ensures var r := Born(id, birth).value;
      && Kept(r) && r.id == id && r.did == birth.document.did && r.pending.None? && r.generation == 1
      && (r.state == Active || r.state == Enrolling)
  {
  }

  /** All key ids of a new identity are distinct, so none of its secrets can already exist. */
  lemma BornDistinct(id: Id, birth: Birth)
    requires Born(id, birth).Some?
    ensures Distinct(KidList(Born(id, birth).value.keys))
  {
    if !birth.Creation? {
      var document := birth.document;
      if document.did.Wba? {
        var found := FindMethod(document.methods, document.proof.value.kid);
        assert HasMethod(document.methods, document.proof.value.kid);
      }
    }
  }

  /** Deleting is refused while anything about the identity is unsettled. */
  predicate Deletable(record: Record) {
    && record.state != Creating
    && record.pending.None? && record.enrollment.None? && record.requestEnrollment.None?
    && record.rootTransfer.None? && record.root != RootPending
  }

  /** Discarding is only for an enrollment that was never confirmed. */
  predicate Discardable(record: Record) {
    && record.state == Enrolling
    && record.enrollment.Some? != record.requestEnrollment.Some?
    && record.pending.None? && record.rootTransfer.None? && record.root == RootAbsent
  }
}
