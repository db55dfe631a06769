/**
 Building the candidate document of an update: a rotation, then authentication-key edits, then
 device edits, applied one after the other to the methods, the relationship lists and the device
 manifest. The first edit that is refused refuses the whole batch.
 */
module Candidate {
  import opened Model

  datatype Result<+T> = Ok(value: T) | Refused

  datatype Rotation = Rotation(oldKid: Kid, newKid: Kid)

  datatype KeyEdit =
    | AddKey(kid: Kid, publicKey: PublicKey)
    | RemoveKey(kid: Kid)

  datatype DeviceEdit =
    | AddDevice(device: Device, signingKey: PublicKey, e2eeKey: PublicKey)
    | RemoveDevice(id: string)
    | AddProfiles(id: string, profiles: seq<string>)

  datatype UpdateSpec = UpdateSpec(
    rotation: Option<Rotation>, keys: seq<KeyEdit>, devices: seq<DeviceEdit>, services: Option<seq<Service>>)

  datatype AddedKey = AddedKey(kid: Kid, role: KeyRole)

  /** A document being edited, with the keys added and retired so far. */
  datatype Draft = Draft(document: Document, added: seq<AddedKey>, retired: seq<Kid>, retiredDevices: set<string>)

  // Lookups and filters

  function FindKey(keys: seq<KeyMetadata>, kid: Kid): (r: Option<KeyMetadata>)
    ensures r.Some? <==> HasKey(keys, kid)
    ensures r.Some? ==> r.value in keys && r.value.kid == kid
  {
    if keys == [] then None
    else if keys[0].kid == kid then Some(keys[0])
    else FindKey(keys[1..], kid)
  }

  predicate HasKey(keys: seq<KeyMetadata>, kid: Kid) {
    exists i :: 0 <= i < |keys| && keys[i].kid == kid
  }

  predicate HasMethod(methods: seq<Method>, kid: Kid) {
    exists i :: 0 <= i < |methods| && methods[i].id == kid
  }

  function Without(kids: seq<Kid>, kid: Kid): (r: seq<Kid>)
    ensures forall k :: k in r <==> k in kids && k != kid
  {
    if kids == [] then []
    else
      var front, last := kids[..|kids| - 1], kids[|kids| - 1];
      assert kids == front + [last];
      if last == kid then Without(front, kid) else Without(front, kid) + [last]
  }

  function WithoutMethods(methods: seq<Method>, kids: set<Kid>): (r: seq<Method>)
    ensures forall m :: m in r <==> m in methods && m.id !in kids
  {
    if methods == [] then []
    else
      var front, last := methods[..|methods| - 1], methods[|methods| - 1];
      assert methods == front + [last];
      if last.id in kids then WithoutMethods(front, kids) else WithoutMethods(front, kids) + [last]
  }

  /** The position of the first device with the given id, or the number of devices. */
  function DevicePosition(devices: seq<Device>, id: string): (i: nat)
    ensures i <= |devices|
    ensures i < |devices| ==> devices[i].id == id
    ensures forall j :: 0 <= j < i ==> devices[j].id != id
  {
    if devices == [] || devices[0].id == id then 0
    else 1 + DevicePosition(devices[1..], id)
  }

  predicate IsSpace(c: char) {
    c == ' ' || c == '\t' || c == '\n' || c == '\r'
  }

  predicate Blank(s: string) {
    forall i :: 0 <= i < |s| ==> IsSpace(s[i])
  }

  predicate Trimmed(s: string) {
    s == [] || (!IsSpace(s[0]) && !IsSpace(s[|s| - 1]))
  }

  function MergeProfiles(profiles: seq<string>, more: seq<string>): seq<string> {
    if more == [] then profiles
    else
      var merged := MergeProfiles(profiles, more[..|more| - 1]);
      var last := more[|more| - 1];
      if last in merged then merged else merged + [last]
  }

  // Edits

  function Rotate(document: Document, record: Record, rotation: Rotation, publicKey: PublicKey): Result<Document> {
    var found := FindKey(record.keys, rotation.oldKid);
    if found.None? then Refused
    else if found.value.origin != Managed || found.value.role != RequestSigning || found.value.state != KeyActive
    then Refused
    else if HasKey(record.keys, rotation.newKid) then Refused
    else Ok(document.(
      methods := document.methods + [Method(rotation.newKid, publicKey)],
      authentication := Without(document.authentication, rotation.oldKid) + [rotation.newKid]))
  }

  function EditKey(draft: Draft, record: Record, edit: KeyEdit): Result<Draft> {
    var document := draft.document;
    match edit
    case AddKey(kid, publicKey) =>
      if HasKey(record.keys, kid) || HasMethod(document.methods, kid) || !publicKey.Ed25519? then Refused
      else Ok(draft.(
        document := document.(
          methods := document.methods + [Method(kid, publicKey)],
          authentication := document.authentication + [kid]),
        added := draft.added + [AddedKey(kid, RequestSigning)]))
    case RemoveKey(kid) =>
      var found := FindKey(record.keys, kid);
      if found.None? || found.value.role != RequestSigning || found.value.origin != External then Refused
      else Ok(draft.(
        document := document.(
          methods := WithoutMethods(document.methods, {kid}),
          authentication := Without(document.authentication, kid)),
        retired := draft.retired + [kid]))
  }

  function EditKeys(draft: Draft, record: Record, edits: seq<KeyEdit>): Result<Draft> {
    if edits == [] then Ok(draft)
    else match EditKeys(draft, record, edits[..|edits| - 1])
      case Refused => Refused
      case Ok(before) => EditKey(before, record, edits[|edits| - 1])
  }

  predicate ValidDevice(device: Device) {
    && !Blank(device.id) && Trimmed(device.id)
    && device.profiles != []
    && forall i :: 0 <= i < |device.profiles| ==> !Blank(device.profiles[i])
  }

  predicate ValidProfiles(profiles: seq<string>) {
    profiles != [] && forall i :: 0 <= i < |profiles| ==> !Blank(profiles[i]) && Trimmed(profiles[i])
  }

  function EditDevice(draft: Draft, record: Record, edit: DeviceEdit): Result<Draft> {
    var document := draft.document;
    var devices := document.Devices();
    match edit
    case AddProfiles(id, profiles) =>
      var at := DevicePosition(devices, id);
      if !ValidProfiles(profiles) || at == |devices| then Refused
      else
        var entry := devices[at].(profiles := MergeProfiles(devices[at].profiles, profiles));
        Ok(draft.(document := document.(manifest := Some(devices[at := entry]))))
    case AddDevice(device, signingKey, e2eeKey) =>
      if !ValidDevice(device) || device.id in draft.retiredDevices || device.signing == device.e2ee then Refused
      else if HasKey(record.keys, device.signing) || HasKey(record.keys, device.e2ee) then Refused
      else if HasMethod(document.methods, device.signing) || HasMethod(document.methods, device.e2ee) then Refused
      else if DevicePosition(devices, device.id) < |devices| || !signingKey.Ed25519? || !e2eeKey.X25519? then Refused
      else Ok(draft.(
        document := document.(
          methods := document.methods + [Method(device.signing, signingKey), Method(device.e2ee, e2eeKey)],
          authentication := document.authentication + [device.signing],
          assertion := document.assertion + [device.signing],
          agreement := document.agreement + [device.e2ee],
          manifest := Some(devices + [device])),
        added := draft.added + [AddedKey(device.signing, DeviceSigning), AddedKey(device.e2ee, E2eeAgreement)]))
    case RemoveDevice(id) =>
      var at := DevicePosition(devices, id);
      if Blank(id) || !Trimmed(id) || at == |devices| then Refused
      else if record.local.Some? && record.local.value.device == id then Refused
      else
        var removed := devices[at];
        Ok(draft.(
          document := document.(
            methods := WithoutMethods(document.methods, {removed.signing, removed.e2ee}),
            authentication := Without(document.authentication, removed.signing),
            assertion := Without(document.assertion, removed.signing),
            agreement := Without(document.agreement, removed.e2ee),
            manifest := Some(devices[..at] + devices[at + 1..])),
          retired := draft.retired + [removed.signing, removed.e2ee],
          retiredDevices := draft.retiredDevices + {id}))
  }

  function EditDevices(draft: Draft, record: Record, edits: seq<DeviceEdit>): Result<Draft> {
    if edits == [] then Ok(draft)
    else match EditDevices(draft, record, edits[..|edits| - 1])
      case Refused => Refused
      case Ok(before) => EditDevice(before, record, edits[|edits| - 1])
  }

  function ReplaceServices(services: seq<Service>, replacements: Option<seq<Service>>): seq<Service> {
    if replacements.None? then services else Descriptions(services) + replacements.value
  }

  function Descriptions(services: seq<Service>): seq<Service> {
    if services == [] then []
    else if services[0].kind == "AgentDescription" then [services[0]] + Descriptions(services[1..])
    else Descriptions(services[1..])
  }

  /** What the world supplies: a new public key, a fresh proof challenge, whether the root secret opens, and
      the verdict of the document validators. */
  datatype Setting = Setting(publicKey: PublicKey, challenge: nat, rootOpens: bool, valid: bool)

  function RootMetadata(keys: seq<KeyMetadata>): (r: Option<KeyMetadata>)
    ensures r.Some? ==> r.value in keys && r.value.role == RootControl
  {
    if keys == [] then None
    else if keys[0].role == RootControl then Some(keys[0])
    else RootMetadata(keys[1..])
  }

  function Sign(document: Document, record: Record, domain: Option<string>, setting: Setting): Result<Document> {
    if record.did.Web? then Ok(document)
    else if RootMetadata(record.keys).None? || !setting.rootOpens then Refused
    else Ok(document.(proof := Some(Proof(RootMetadata(record.keys).value.kid, domain, setting.challenge))))
  }

  function Start(record: Record, document: Document): Draft {
    Draft(document, [], [], record.retiredDevices)
  }

  /** The edited document before it is signed. */
  function Edited(record: Record, spec: UpdateSpec, setting: Setting): Result<Draft> {
    var bare := record.document.WithoutProof();
    var rotated := if spec.rotation.None? then Ok(bare)
      else Rotate(bare, record, spec.rotation.value, setting.publicKey);
    if rotated.Refused? then Refused
    else
      var keyed := EditKeys(Start(record, rotated.value), record, spec.keys);
      if keyed.Refused? then Refused else EditDevices(keyed.value, record, spec.devices)
  }

  function Finish(document: Document, spec: UpdateSpec): Document {
    document.(
      manifest := if document.Devices() == [] then None else document.manifest,
      services := ReplaceServices(document.services, spec.services))
  }

  function Build(record: Record, spec: UpdateSpec, setting: Setting): Result<Draft> {
    var domain := if record.document.proof.Some? then record.document.proof.value.domain else None;
    var edited := Edited(record, spec, setting);
    if edited.Refused? then Refused
    else
      var signed := Sign(Finish(edited.value.document, spec), record, domain, setting);
      if signed.Refused? || !setting.valid then Refused
      else Ok(edited.value.(document := signed.value))
  }

  // Metadata of the new keys

  function Metadata(document: Document, kid: Kid, role: KeyRole, origin: KeyOrigin): Result<KeyMetadata> {
    match FindMethod(document.methods, kid)
    case None => Refused
    case Some(m) => Ok(KeyMetadata(kid, role, origin, KeyActive, false, 1, m.publicKey))
  }

  function AddedMetadata(document: Document, added: seq<AddedKey>): Result<seq<KeyMetadata>> {
    if added == [] then Ok([])
    else
      var last := added[|added| - 1];
      match (AddedMetadata(document, added[..|added| - 1]), Metadata(document, last.kid, last.role, External))
      case (Ok(keys), Ok(key)) => Ok(keys + [key])
      case _ => Refused
  }

  /** All keys a revision brings: the added external ones and, last, the managed key of a rotation. */
  function NewKeys(document: Document, draft: Draft, spec: UpdateSpec): Result<seq<KeyMetadata>> {
    match AddedMetadata(document, draft.added)
    case Refused => Refused
    case Ok(keys) =>
      if spec.rotation.None? then Ok(keys)
      else match Metadata(document, spec.rotation.value.newKid, RequestSigning, Managed)
        case Refused => Refused
        case Ok(key) => Ok(keys + [key])
  }

  function RetiredKids(draft: Draft, spec: UpdateSpec): seq<Kid> {
    if spec.rotation.None? then draft.retired else draft.retired + [spec.rotation.value.oldKid]
  }

  // Retiring keys when a revision commits

  /** The two lists hold the same keys, possibly in other states. */
  predicate SameButState(keys: seq<KeyMetadata>, other: seq<KeyMetadata>) {
    |keys| == |other| && forall i :: 0 <= i < |keys| ==> other[i] == keys[i].(state := other[i].state)
  }

  /** The first key with the given id, if any, is retired. */
  function Retire(keys: seq<KeyMetadata>, kid: Kid): (r: seq<KeyMetadata>)
    ensures SameButState(keys, r)
    ensures forall i :: 0 <= i < |keys| && keys[i].kid != kid ==> r[i] == keys[i]
  {
    if keys == [] then []
    else if keys[0].kid == kid then [keys[0].(state := KeyRetired)] + keys[1..]
    else [keys[0]] + Retire(keys[1..], kid)
  }

  function RetireAll(keys: seq<KeyMetadata>, kids: seq<Kid>): (r: seq<KeyMetadata>)
    ensures SameButState(keys, r)
  {
    if kids == [] then keys else Retire(RetireAll(keys, kids[..|kids| - 1]), kids[|kids| - 1])
  }
}
