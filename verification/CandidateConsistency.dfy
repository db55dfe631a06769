/**
 What a batch of edits keeps: the methods, the relationship lists and the device manifest of the
 document stay mutually consistent, key ids stay unique, and devices never return. Exactly when that
 fails, because a request reuses an id, closes the module.
 */
module CandidateConsistency {
  import opened Model
  import opened Candidate

  /** The stages an accepted batch goes through. */
  lemma Stages(record: Record, spec: UpdateSpec, setting: Setting)
    returns (rotated: Document, keyed: Draft, edited: Draft)
    requires Build(record, spec, setting).Ok?
    ensures spec.rotation.None? ==> rotated == record.document.WithoutProof()
    ensures spec.rotation.Some? ==>
      Rotate(record.document.WithoutProof(), record, spec.rotation.value, setting.publicKey) == Ok(rotated)
    ensures EditKeys(Start(record, rotated), record, spec.keys) == Ok(keyed)
    ensures EditDevices(keyed, record, spec.devices) == Ok(edited)
    ensures var draft := Build(record, spec, setting).value;
      && draft.added == edited.added && draft.retired == edited.retired
      && draft.document.methods == edited.document.methods
      && draft.document.authentication == edited.document.authentication
      && draft.document.assertion == edited.document.assertion
      && draft.document.agreement == edited.document.agreement
      && draft.document.Devices() == edited.document.Devices()
  {
    var bare := record.document.WithoutProof();
    rotated := if spec.rotation.None? then bare else Rotate(bare, record, spec.rotation.value, setting.publicKey).value;
    keyed := EditKeys(Start(record, rotated), record, spec.keys).value;
    edited := EditDevices(keyed, record, spec.devices).value;
  }

  // Consistency of a document

  ghost predicate UniqueMethods(methods: seq<Method>) {
    forall i, j :: 0 <= i < j < |methods| ==> methods[i].id != methods[j].id
  }

  ghost predicate Resolves(kids: seq<Kid>, methods: seq<Method>) {
    forall kid :: kid in kids ==> HasMethod(methods, kid)
  }

  predicate Apart(a: Device, b: Device) {
    a.id != b.id && a.signing != b.signing && a.signing != b.e2ee && a.e2ee != b.signing && a.e2ee != b.e2ee
  }

  ghost predicate DevicesApart(devices: seq<Device>) {
    forall i, j :: 0 <= i < j < |devices| ==> Apart(devices[i], devices[j])
  }

  /** A device's keys are published and listed for exactly what they are for. */
  ghost predicate Anchored(document: Document, device: Device) {
    && HasMethod(document.methods, device.signing) && HasMethod(document.methods, device.e2ee)
    && device.signing in document.authentication && device.signing in document.assertion
    && device.signing !in document.agreement
    && device.e2ee in document.agreement
    && device.e2ee !in document.authentication && device.e2ee !in document.assertion
    && device.signing != device.e2ee
  }

  /** Request-signing keys authenticate and do nothing else. */
  ghost predicate RequestKeysApart(document: Document, keys: seq<KeyMetadata>) {
    forall key :: key in keys && key.role == RequestSigning ==>
      && key.kid !in document.assertion
      && key.kid !in document.agreement
      && forall device :: device in document.Devices() ==> key.kid != device.signing && key.kid != device.e2ee
  }

  ghost predicate Coherent(document: Document, keys: seq<KeyMetadata>) {
    && UniqueMethods(document.methods)
    && Resolves(document.authentication, document.methods)
    && Resolves(document.assertion, document.methods)
    && Resolves(document.agreement, document.methods)
    && DevicesApart(document.Devices())
    && (forall device :: device in document.Devices() ==> Anchored(document, device))
    && RequestKeysApart(document, keys)
  }

  // Adding and removing methods

  lemma MethodAppended(methods: seq<Method>, more: seq<Method>, kid: Kid)
    ensures HasMethod(methods + more, kid) <==> HasMethod(methods, kid) || HasMethod(more, kid)
  {
    if HasMethod(methods, kid) {
      var i :| 0 <= i < |methods| && methods[i].id == kid;
      assert (methods + more)[i].id == kid;
    }
    if HasMethod(more, kid) {
      var i :| 0 <= i < |more| && more[i].id == kid;
      assert (methods + more)[|methods| + i].id == kid;
    }
  }

  lemma UniqueAppended(methods: seq<Method>, m: Method)
    requires UniqueMethods(methods) && !HasMethod(methods, m.id)
    ensures UniqueMethods(methods + [m])
  {
  }

  lemma MethodKept(methods: seq<Method>, kids: set<Kid>, kid: Kid)
    ensures HasMethod(WithoutMethods(methods, kids), kid) <==> HasMethod(methods, kid) && kid !in kids
  {
    var rest := WithoutMethods(methods, kids);
    if HasMethod(methods, kid) && kid !in kids {
      var i :| 0 <= i < |methods| && methods[i].id == kid;
      assert methods[i] in rest;
    }
    if HasMethod(rest, kid) {
      var i :| 0 <= i < |rest| && rest[i].id == kid;
      assert rest[i] in rest;
    }
  }

  lemma {:induction false} UniqueKept(methods: seq<Method>, kids: set<Kid>)
    requires UniqueMethods(methods)
    ensures UniqueMethods(WithoutMethods(methods, kids))
  {
    if methods != [] {
      var front, last := methods[..|methods| - 1], methods[|methods| - 1];
      UniqueKept(front, kids);
      if last.id !in kids {
        MethodKept(front, kids, last.id);
        UniqueAppended(WithoutMethods(front, kids), last);
      }
    }
  }

  lemma ResolvesAppended(kids: seq<Kid>, methods: seq<Method>, more: seq<Method>)
    requires Resolves(kids, methods)
    ensures Resolves(kids, methods + more)
  {
    forall kid | kid in kids
      ensures HasMethod(methods + more, kid)
    {
      MethodAppended(methods, more, kid);
    }
  }

  lemma ResolvesKept(kids: seq<Kid>, methods: seq<Method>, gone: set<Kid>)
    requires Resolves(kids, methods) && forall kid :: kid in kids ==> kid !in gone
    ensures Resolves(kids, WithoutMethods(methods, gone))
  {
    forall kid | kid in kids
      ensures HasMethod(WithoutMethods(methods, gone), kid)
    {
      MethodKept(methods, gone, kid);
    }
  }

  // Each edit keeps a coherent document coherent

  lemma AnchoredAppended(document: Document, after: Document, device: Device, more: seq<Method>)
    requires Anchored(document, device)
    requires after.methods == document.methods + more
    requires forall kid :: kid == device.signing || kid == device.e2ee ==>
      && (kid in after.authentication <==> kid in document.authentication)
      && (kid in after.assertion <==> kid in document.assertion)
      && (kid in after.agreement <==> kid in document.agreement)
    ensures Anchored(after, device)
  {
    MethodAppended(document.methods, more, device.signing);
    MethodAppended(document.methods, more, device.e2ee);
  }

  lemma AddKeyCoherent(document: Document, keys: seq<KeyMetadata>, kid: Kid, publicKey: PublicKey)
    requires Coherent(document, keys) && !HasMethod(document.methods, kid)
    ensures Coherent(document.(methods := document.methods + [Method(kid, publicKey)],
                               authentication := document.authentication + [kid]), keys)
  {
    var m := Method(kid, publicKey);
    var after := document.(methods := document.methods + [m], authentication := document.authentication + [kid]);
    UniqueAppended(document.methods, m);
    MethodAppended(document.methods, [m], kid);
    assert [m][0].id == kid;
    ResolvesAppended(document.authentication, document.methods, [m]);
    ResolvesAppended(document.assertion, document.methods, [m]);
    ResolvesAppended(document.agreement, document.methods, [m]);
    forall device | device in after.Devices()
      ensures Anchored(after, device)
    {
      AnchoredAppended(document, after, device, [m]);
    }
  }

  lemma RotateCoherent(document: Document, record: Record, rotation: Rotation, publicKey: PublicKey)
    requires Coherent(document, record.keys)
    requires Rotate(document, record, rotation, publicKey).Ok?
    requires !HasMethod(document.methods, rotation.newKid)
    ensures Coherent(Rotate(document, record, rotation, publicKey).value, record.keys)
  {
    var without := document.(authentication := Without(document.authentication, rotation.oldKid));
    forall device | device in without.Devices()
      ensures Anchored(without, device)
    {
    }
    AddKeyCoherent(without, record.keys, rotation.newKid, publicKey);
  }

  lemma RemoveKeyCoherent(document: Document, keys: seq<KeyMetadata>, key: KeyMetadata)
    requires Coherent(document, keys) && key in keys && key.role == RequestSigning
    ensures Coherent(document.(methods := WithoutMethods(document.methods, {key.kid}),
                               authentication := Without(document.authentication, key.kid)), keys)
  {
    var after := document.(methods := WithoutMethods(document.methods, {key.kid}),
                           authentication := Without(document.authentication, key.kid));
    UniqueKept(document.methods, {key.kid});
    ResolvesKept(after.authentication, document.methods, {key.kid});
    ResolvesKept(document.assertion, document.methods, {key.kid});
    ResolvesKept(document.agreement, document.methods, {key.kid});
    forall device | device in after.Devices()
      ensures Anchored(after, device)
    {
      MethodKept(document.methods, {key.kid}, device.signing);
      MethodKept(document.methods, {key.kid}, device.e2ee);
    }
  }

  lemma EditKeyCoherent(draft: Draft, record: Record, edit: KeyEdit)
    requires Coherent(draft.document, record.keys) && EditKey(draft, record, edit).Ok?
    ensures Coherent(EditKey(draft, record, edit).value.document, record.keys)
  {
    match edit
    case AddKey(kid, publicKey) => AddKeyCoherent(draft.document, record.keys, kid, publicKey);
    case RemoveKey(kid) => RemoveKeyCoherent(draft.document, record.keys, FindKey(record.keys, kid).value);
  }

  lemma {:induction false} EditKeysCoherent(draft: Draft, record: Record, edits: seq<KeyEdit>)
    requires Coherent(draft.document, record.keys) && EditKeys(draft, record, edits).Ok?
    ensures Coherent(EditKeys(draft, record, edits).value.document, record.keys)
  {
    if edits != [] {
      var before := EditKeys(draft, record, edits[..|edits| - 1]).value;
      EditKeysCoherent(draft, record, edits[..|edits| - 1]);
      EditKeyCoherent(before, record, edits[|edits| - 1]);
    }
  }

  lemma AddProfilesCoherent(draft: Draft, record: Record, edit: DeviceEdit)
    requires edit.AddProfiles? && Coherent(draft.document, record.keys) && EditDevice(draft, record, edit).Ok?
    ensures Coherent(EditDevice(draft, record, edit).value.document, record.keys)
  {
    var after := EditDevice(draft, record, edit).value.document;
    var devices := draft.document.Devices();
    forall device | device in after.Devices()
      ensures Anchored(after, device)
      ensures exists was :: was in devices && was.signing == device.signing && was.e2ee == device.e2ee
    {
      var i :| 0 <= i < |devices| && after.Devices()[i] == device;
      assert Anchored(draft.document, devices[i]);
    }
    assert DevicesApart(after.Devices()) by {
      forall i, j | 0 <= i < j < |devices|
        ensures Apart(after.Devices()[i], after.Devices()[j])
      {
        assert Apart(devices[i], devices[j]);
      }
    }
  }

  /** The keys of a new device are not among those any other device or list already uses. */
  lemma NewDeviceApart(document: Document, keys: seq<KeyMetadata>, device: Device, other: Device)
    requires Coherent(document, keys) && other in document.Devices()
    requires !HasMethod(document.methods, device.signing) && !HasMethod(document.methods, device.e2ee)
    requires DevicePosition(document.Devices(), device.id) == |document.Devices()|
    ensures Apart(other, device)
  {
    assert Anchored(document, other);
    var i :| 0 <= i < |document.Devices()| && document.Devices()[i] == other;
    assert document.Devices()[i].id != device.id;
  }

  lemma AddDeviceCoherent(draft: Draft, record: Record, edit: DeviceEdit)
    requires edit.AddDevice? && Coherent(draft.document, record.keys) && EditDevice(draft, record, edit).Ok?
    ensures Coherent(EditDevice(draft, record, edit).value.document, record.keys)
  {
    var document := draft.document;
    var device := edit.device;
    var after := EditDevice(draft, record, edit).value.document;
    var s, e := Method(device.signing, edit.signingKey), Method(device.e2ee, edit.e2eeKey);
    AddDeviceLists(document, after, record.keys, device, s, e);
    forall other | other in document.Devices()
      ensures Apart(other, device) && Anchored(after, other)
    {
      NewDeviceApart(document, record.keys, device, other);
      AnchoredAppended(document, after, other, [s, e]);
    }
    assert after.Devices() == document.Devices() + [device];
    assert DevicesApart(after.Devices());
    assert RequestKeysApart(after, record.keys) by {
      forall key | key in record.keys && key.role == RequestSigning
        ensures key.kid != device.signing && key.kid != device.e2ee
      {
        var i :| 0 <= i < |record.keys| && record.keys[i] == key;
      }
    }
  }

  lemma AddDeviceLists(document: Document, after: Document, keys: seq<KeyMetadata>, device: Device, s: Method,
                       e: Method)
    requires Coherent(document, keys) && s.id == device.signing && e.id == device.e2ee && s.id != e.id
    requires !HasMethod(document.methods, s.id) && !HasMethod(document.methods, e.id)
    requires after.methods == document.methods + [s, e]
    requires after.authentication == document.authentication + [s.id]
    requires after.assertion == document.assertion + [s.id]
    requires after.agreement == document.agreement + [e.id]
    ensures UniqueMethods(after.methods)
    ensures Resolves(after.authentication, after.methods) && Resolves(after.assertion, after.methods)
    ensures Resolves(after.agreement, after.methods)
    ensures Anchored(after, device)
  {
    MethodAppended(document.methods, [s], e.id);
    UniqueAppended(document.methods, s);
    UniqueAppended(document.methods + [s], e);
    assert document.methods + [s, e] == document.methods + [s] + [e];
    ResolvesAppended(document.authentication, document.methods, [s, e]);
    ResolvesAppended(document.assertion, document.methods, [s, e]);
    ResolvesAppended(document.agreement, document.methods, [s, e]);
    MethodAppended(document.methods, [s, e], s.id);
    MethodAppended(document.methods, [s, e], e.id);
    assert [s, e][0].id == s.id && [s, e][1].id == e.id;
  }

  /** The document without one of its devices. */
  function WithoutDevice(document: Document, at: nat): Document
    requires at < |document.Devices()|
  {
    var devices := document.Devices();
    var removed := devices[at];
    document.(
      methods := WithoutMethods(document.methods, {removed.signing, removed.e2ee}),
      authentication := Without(document.authentication, removed.signing),
      assertion := Without(document.assertion, removed.signing),
      agreement := Without(document.agreement, removed.e2ee),
      manifest := Some(devices[..at] + devices[at + 1..]))
  }

  lemma OthersApart(devices: seq<Device>, at: nat, device: Device)
    requires DevicesApart(devices) && at < |devices| && device in devices[..at] + devices[at + 1..]
    ensures device in devices && Apart(device, devices[at])
  {
    var rest := devices[..at] + devices[at + 1..];
    var i :| 0 <= i < |rest| && rest[i] == device;
    if i < at {
      assert device == devices[i] && Apart(devices[i], devices[at]);
    } else {
      assert device == devices[i + 1] && Apart(devices[at], devices[i + 1]);
    }
  }

  lemma StillAnchored(document: Document, at: nat, device: Device)
    requires at < |document.Devices()| && Anchored(document, device) && Apart(device, document.Devices()[at])
    ensures Anchored(WithoutDevice(document, at), device)
  {
    var removed := document.Devices()[at];
    MethodKept(document.methods, {removed.signing, removed.e2ee}, device.signing);
    MethodKept(document.methods, {removed.signing, removed.e2ee}, device.e2ee);
  }

  lemma WithoutDeviceLists(document: Document, keys: seq<KeyMetadata>, at: nat)
    requires Coherent(document, keys) && at < |document.Devices()|
    ensures var after := WithoutDevice(document, at);
      && UniqueMethods(after.methods)
      && Resolves(after.authentication, after.methods) && Resolves(after.assertion, after.methods)
      && Resolves(after.agreement, after.methods)
  {
    var after, removed := WithoutDevice(document, at), document.Devices()[at];
    var gone := {removed.signing, removed.e2ee};
    assert Anchored(document, removed);
    UniqueKept(document.methods, gone);
    ResolvesKept(after.authentication, document.methods, gone);
    ResolvesKept(after.assertion, document.methods, gone);
    ResolvesKept(after.agreement, document.methods, gone);
  }

  lemma RestApart(devices: seq<Device>, at: nat)
    requires DevicesApart(devices) && at < |devices|
    ensures DevicesApart(devices[..at] + devices[at + 1..])
  {
    var rest := devices[..at] + devices[at + 1..];
    assert forall i :: 0 <= i < |rest| ==> rest[i] == if i < at then devices[i] else devices[i + 1];
  }

  lemma WithoutDeviceCoherent(document: Document, keys: seq<KeyMetadata>, at: nat)
    requires Coherent(document, keys) && at < |document.Devices()|
    ensures Coherent(WithoutDevice(document, at), keys)
  {
    var after := WithoutDevice(document, at);
    WithoutDeviceLists(document, keys, at);
    RestApart(document.Devices(), at);
    forall device | device in after.Devices()
      ensures Anchored(after, device) && device in document.Devices()
    {
      OthersApart(document.Devices(), at, device);
      StillAnchored(document, at, device);
    }
  }

  lemma RemoveDeviceCoherent(draft: Draft, record: Record, edit: DeviceEdit)
    requires edit.RemoveDevice? && Coherent(draft.document, record.keys) && EditDevice(draft, record, edit).Ok?
    ensures Coherent(EditDevice(draft, record, edit).value.document, record.keys)
  {
    var at := DevicePosition(draft.document.Devices(), edit.id);
    WithoutDeviceCoherent(draft.document, record.keys, at);
    assert EditDevice(draft, record, edit).value.document == WithoutDevice(draft.document, at);
  }

  lemma EditDeviceCoherent(draft: Draft, record: Record, edit: DeviceEdit)
    requires Coherent(draft.document, record.keys) && EditDevice(draft, record, edit).Ok?
    ensures Coherent(EditDevice(draft, record, edit).value.document, record.keys)
  {
    match edit
    case AddDevice(_, _, _) => AddDeviceCoherent(draft, record, edit);
    case RemoveDevice(_) => RemoveDeviceCoherent(draft, record, edit);
    case AddProfiles(_, _) => AddProfilesCoherent(draft, record, edit);
  }

  lemma {:induction false} EditDevicesCoherent(draft: Draft, record: Record, edits: seq<DeviceEdit>)
    requires Coherent(draft.document, record.keys) && EditDevices(draft, record, edits).Ok?
    ensures Coherent(EditDevices(draft, record, edits).value.document, record.keys)
  {
    if edits != [] {
      var before := EditDevices(draft, record, edits[..|edits| - 1]).value;
      EditDevicesCoherent(draft, record, edits[..|edits| - 1]);
      EditDeviceCoherent(before, record, edits[|edits| - 1]);
    }
  }

  /** The new key of the rotation is not already the id of a published method. */
  predicate RotationFresh(document: Document, spec: UpdateSpec) {
    spec.rotation.Some? ==> !HasMethod(document.methods, spec.rotation.value.newKid)
  }

  /** From a coherent document, a batch whose rotation reuses no published id produces a coherent candidate. */
  lemma CandidateFitsKeys(record: Record, spec: UpdateSpec, setting: Setting)
    requires Coherent(record.document, record.keys) && Build(record, spec, setting).Ok?
    requires RotationFresh(record.document, spec)
    ensures Coherent(Build(record, spec, setting).value.document, record.keys)
  {
    var rotated, keyed, edited := Stages(record, spec, setting);
    RotatedCoherent(record, spec, setting, rotated);
    EditKeysCoherent(Start(record, rotated), record, spec.keys);
    EditDevicesCoherent(keyed, record, spec.devices);
    FinishCoherent(edited.document, Build(record, spec, setting).value.document, record.keys);
  }

  lemma RotatedCoherent(record: Record, spec: UpdateSpec, setting: Setting, rotated: Document)
    requires Coherent(record.document, record.keys) && RotationFresh(record.document, spec)
    requires spec.rotation.None? ==> rotated == record.document.WithoutProof()
    requires spec.rotation.Some? ==>
      Rotate(record.document.WithoutProof(), record, spec.rotation.value, setting.publicKey) == Ok(rotated)
    ensures Coherent(rotated, record.keys)
  {
    var bare := record.document.WithoutProof();
    FinishCoherent(record.document, bare, record.keys);
    if spec.rotation.Some? {
      RotateCoherent(bare, record, spec.rotation.value, setting.publicKey);
    }
  }

  /** Normalizing the manifest, replacing services and signing touch nothing that consistency is about. */
  lemma FinishCoherent(edited: Document, signed: Document, keys: seq<KeyMetadata>)
    requires Coherent(edited, keys)
    requires signed.methods == edited.methods && signed.authentication == edited.authentication
    requires signed.assertion == edited.assertion && signed.agreement == edited.agreement
    requires signed.Devices() == edited.Devices()
    ensures Coherent(signed, keys)
  {
    forall device | device in signed.Devices()
      ensures Anchored(signed, device)
    {
      assert Anchored(edited, device);
    }
  }

  // When a rotation reuses the id of a published method

  function CountId(methods: seq<Method>, kid: Kid): nat {
    if methods == [] then 0
    else CountId(methods[..|methods| - 1], kid) + (if methods[|methods| - 1].id == kid then 1 else 0)
  }

  lemma {:induction false} CountAppended(methods: seq<Method>, more: seq<Method>, kid: Kid)
    ensures CountId(methods + more, kid) == CountId(methods, kid) + CountId(more, kid)
  {
    if more == [] {
      assert methods + more == methods;
    } else {
      assert (methods + more)[..|methods + more| - 1] == methods + more[..|more| - 1];
      CountAppended(methods, more[..|more| - 1], kid);
    }
  }

  lemma {:induction false} CountKept(methods: seq<Method>, kids: set<Kid>, kid: Kid)
    requires kid !in kids
    ensures CountId(WithoutMethods(methods, kids), kid) == CountId(methods, kid)
  {
    if methods != [] {
      var front, last := methods[..|methods| - 1], methods[|methods| - 1];
      CountKept(front, kids, kid);
      if last.id !in kids {
        var rest := WithoutMethods(front, kids);
        assert (rest + [last])[..|rest + [last]| - 1] == rest;
      }
    }
  }

  lemma {:induction false} CountOfOne(methods: seq<Method>, kid: Kid)
    ensures CountId(methods, kid) > 0 <==> HasMethod(methods, kid)
    ensures UniqueMethods(methods) ==> CountId(methods, kid) <= 1
  {
    if methods != [] {
      var front, last := methods[..|methods| - 1], methods[|methods| - 1];
      assert methods == front + [last];
      CountOfOne(front, kid);
      MethodAppended(front, [last], kid);
      assert HasMethod([last], kid) <==> last.id == kid by {
        assert [last][0] == last;
      }
    }
  }

  lemma {:induction false} EditKeysKeepTwo(draft: Draft, record: Record, edits: seq<KeyEdit>, kid: Kid)
    requires !HasKey(record.keys, kid) && CountId(draft.document.methods, kid) >= 2
    requires EditKeys(draft, record, edits).Ok?
    ensures CountId(EditKeys(draft, record, edits).value.document.methods, kid) >= 2
  {
    if edits != [] {
      var before := EditKeys(draft, record, edits[..|edits| - 1]).value;
      EditKeysKeepTwo(draft, record, edits[..|edits| - 1], kid);
      match edits[|edits| - 1]
      case AddKey(added, publicKey) => CountAppended(before.document.methods, [Method(added, publicKey)], kid);
      case RemoveKey(gone) => CountKept(before.document.methods, {gone}, kid);
    }
  }

  /** The id is published twice, not at all, or for a device the edits added. */
  predicate Spoiled(methods: seq<Method>, edits: seq<DeviceEdit>, kid: Kid) {
    CountId(methods, kid) >= 2 || CountId(methods, kid) == 0 || kid in DeviceKids(edits)
  }

  lemma EditDeviceSpoils(draft: Draft, record: Record, edits: seq<DeviceEdit>, edit: DeviceEdit, kid: Kid)
    requires Spoiled(draft.document.methods, edits, kid) && EditDevice(draft, record, edit).Ok?
    ensures Spoiled(EditDevice(draft, record, edit).value.document.methods, edits + [edit], kid)
  {
    var methods := draft.document.methods;
    var devices := draft.document.Devices();
    assert (edits + [edit])[..|edits + [edit]| - 1] == edits;
    match edit
    case AddDevice(device, s, e) =>
      var more := [Method(device.signing, s), Method(device.e2ee, e)];
      CountAppended(methods, more, kid);
      CountOfOne(more, kid);
    case RemoveDevice(id) =>
      var removed := devices[DevicePosition(devices, id)];
      var gone := {removed.signing, removed.e2ee};
      if kid in gone {
        MethodKept(methods, gone, kid);
        CountOfOne(WithoutMethods(methods, gone), kid);
      } else {
        CountKept(methods, gone, kid);
      }
    case AddProfiles(_, _) =>
  }

  lemma {:induction false} EditDevicesSpoil(draft: Draft, record: Record, edits: seq<DeviceEdit>, kid: Kid)
    requires CountId(draft.document.methods, kid) >= 2 && EditDevices(draft, record, edits).Ok?
    ensures Spoiled(EditDevices(draft, record, edits).value.document.methods, edits, kid)
  {
    if edits != [] {
      var front, last := edits[..|edits| - 1], edits[|edits| - 1];
      assert edits == front + [last];
      EditDevicesSpoil(draft, record, front, kid);
      EditDeviceSpoils(EditDevices(draft, record, front).value, record, front, last, kid);
    }
  }

  /** A rotation to a published id spoils that id, whatever else the batch does. */
  lemma RotationSpoils(record: Record, spec: UpdateSpec, setting: Setting)
    requires Build(record, spec, setting).Ok? && !RotationFresh(record.document, spec)
    ensures Spoiled(Build(record, spec, setting).value.document.methods, spec.devices, spec.rotation.value.newKid)
  {
    var kid := spec.rotation.value.newKid;
    var methods := record.document.methods;
    var rotated, keyed, edited := Stages(record, spec, setting);
    CountAppended(methods, [Method(kid, setting.publicKey)], kid);
    CountOfOne(methods, kid);
    CountOfOne([Method(kid, setting.publicKey)], kid);
    assert [Method(kid, setting.publicKey)][0].id == kid;
    EditKeysKeepTwo(Start(record, rotated), record, spec.keys, kid);
    EditDevicesSpoil(keyed, record, spec.devices, kid);
  }

  // Devices that were retired do not come back

  lemma EditDeviceRetires(draft: Draft, record: Record, edit: DeviceEdit)
    requires DeviceIds(draft.document) !! record.retiredDevices && record.retiredDevices <= draft.retiredDevices
    requires EditDevice(draft, record, edit).Ok?
    ensures DeviceIds(EditDevice(draft, record, edit).value.document) !! record.retiredDevices
    ensures record.retiredDevices <= EditDevice(draft, record, edit).value.retiredDevices
  {
    var after := EditDevice(draft, record, edit).value.document;
    var devices := draft.document.Devices();
    forall device | device in after.Devices()
      ensures device.id !in record.retiredDevices
    {
      var i :| 0 <= i < |after.Devices()| && after.Devices()[i] == device;
      if edit.AddProfiles? {
        assert devices[i] in devices && devices[i].id == device.id;
        assert devices[i].id in DeviceIds(draft.document);
      } else if device in devices {
        assert device.id in DeviceIds(draft.document);
      }
    }
  }

  lemma {:induction false} EditDevicesRetire(draft: Draft, record: Record, edits: seq<DeviceEdit>)
    requires DeviceIds(draft.document) !! record.retiredDevices && record.retiredDevices <= draft.retiredDevices
    requires EditDevices(draft, record, edits).Ok?
    ensures DeviceIds(EditDevices(draft, record, edits).value.document) !! record.retiredDevices
    ensures record.retiredDevices <= EditDevices(draft, record, edits).value.retiredDevices
  {
    if edits != [] {
      EditDevicesRetire(draft, record, edits[..|edits| - 1]);
      EditDeviceRetires(EditDevices(draft, record, edits[..|edits| - 1]).value, record, edits[|edits| - 1]);
    }
  }

  lemma {:induction false} EditKeysSameDevices(draft: Draft, record: Record, edits: seq<KeyEdit>)
    requires EditKeys(draft, record, edits).Ok?
    ensures EditKeys(draft, record, edits).value.document.manifest == draft.document.manifest
    ensures EditKeys(draft, record, edits).value.retiredDevices == draft.retiredDevices
  {
    if edits != [] {
      EditKeysSameDevices(draft, record, edits[..|edits| - 1]);
    }
  }

  /** A candidate never lists a device the record remembers as retired. */
  lemma CandidateAvoidsRetired(record: Record, spec: UpdateSpec, setting: Setting)
    requires Build(record, spec, setting).Ok?
    requires DeviceIds(record.document) !! record.retiredDevices
    ensures DeviceIds(Build(record, spec, setting).value.document) !! record.retiredDevices
  {
    var rotated, keyed, edited := Stages(record, spec, setting);
    assert DeviceIds(rotated) == DeviceIds(record.document);
    EditKeysSameDevices(Start(record, rotated), record, spec.keys);
    assert DeviceIds(keyed.document) == DeviceIds(record.document);
    EditDevicesRetire(keyed, record, spec.devices);
    assert DeviceIds(Build(record, spec, setting).value.document) == DeviceIds(edited.document);
  }

  // Key ids after the revision commits

  ghost predicate Distinct(kids: seq<Kid>) {
    forall i, j :: 0 <= i < j < |kids| ==> kids[i] != kids[j]
  }

  function KidList(keys: seq<KeyMetadata>): seq<Kid> {
    seq(|keys|, i requires 0 <= i < |keys| => keys[i].kid)
  }

  function AddedKids(added: seq<AddedKey>): seq<Kid> {
    seq(|added|, i requires 0 <= i < |added| => added[i].kid)
  }

  function EditKids(edits: seq<KeyEdit>): seq<Kid> {
    if edits == [] then []
    else
      var last := edits[|edits| - 1];
      EditKids(edits[..|edits| - 1]) + (if last.AddKey? then [last.kid] else [])
  }

  function DeviceKids(edits: seq<DeviceEdit>): seq<Kid> {
    if edits == [] then []
    else
      var last := edits[|edits| - 1];
      DeviceKids(edits[..|edits| - 1]) + (if last.AddDevice? then [last.device.signing, last.device.e2ee] else [])
  }

  function RotationKids(spec: UpdateSpec): seq<Kid> {
    if spec.rotation.None? then [] else [spec.rotation.value.newKid]
  }

  /** Every key id a request introduces, in the order the store records them. */
  function SpecKids(spec: UpdateSpec): seq<Kid> {
    EditKids(spec.keys) + DeviceKids(spec.devices) + RotationKids(spec)
  }

  ghost predicate NoneKnown(keys: seq<KeyMetadata>, kids: seq<Kid>) {
    forall kid :: kid in kids ==> !HasKey(keys, kid)
  }

  lemma AddedKidsAppended(added: seq<AddedKey>, more: seq<AddedKey>)
    ensures AddedKids(added + more) == AddedKids(added) + AddedKids(more)
  {
  }

  lemma KidListAppended(keys: seq<KeyMetadata>, more: seq<KeyMetadata>)
    ensures KidList(keys + more) == KidList(keys) + KidList(more)
  {
  }

  lemma {:induction false} EditKeysAdd(draft: Draft, record: Record, edits: seq<KeyEdit>)
    requires EditKeys(draft, record, edits).Ok?
    ensures AddedKids(EditKeys(draft, record, edits).value.added) == AddedKids(draft.added) + EditKids(edits)
    ensures NoneKnown(record.keys, EditKids(edits))
  {
    if edits != [] {
      EditKeysAdd(draft, record, edits[..|edits| - 1]);
      var before := EditKeys(draft, record, edits[..|edits| - 1]).value;
      var last := edits[|edits| - 1];
      if last.AddKey? {
        AddedKidsAppended(before.added, [AddedKey(last.kid, RequestSigning)]);
        assert AddedKids([AddedKey(last.kid, RequestSigning)]) == [last.kid];
      }
    }
  }

  lemma EditDeviceAdds(draft: Draft, record: Record, edit: DeviceEdit)
    requires EditDevice(draft, record, edit).Ok?
    ensures edit.AddDevice? ==>
      && AddedKids(EditDevice(draft, record, edit).value.added)
         == AddedKids(draft.added) + [edit.device.signing, edit.device.e2ee]
      && !HasKey(record.keys, edit.device.signing) && !HasKey(record.keys, edit.device.e2ee)
    ensures !edit.AddDevice? ==> EditDevice(draft, record, edit).value.added == draft.added
  {
    if edit.AddDevice? {
      var more := [AddedKey(edit.device.signing, DeviceSigning), AddedKey(edit.device.e2ee, E2eeAgreement)];
      AddedKidsAppended(draft.added, more);
      assert AddedKids(more) == [edit.device.signing, edit.device.e2ee];
    }
  }

  lemma {:induction false} EditDevicesAdd(draft: Draft, record: Record, edits: seq<DeviceEdit>)
    requires EditDevices(draft, record, edits).Ok?
    ensures AddedKids(EditDevices(draft, record, edits).value.added) == AddedKids(draft.added) + DeviceKids(edits)
    ensures NoneKnown(record.keys, DeviceKids(edits))
  {
    if edits != [] {
      EditDevicesAdd(draft, record, edits[..|edits| - 1]);
      EditDeviceAdds(EditDevices(draft, record, edits[..|edits| - 1]).value, record, edits[|edits| - 1]);
    }
  }

  lemma {:induction false} MetadataKids(document: Document, added: seq<AddedKey>)
    requires AddedMetadata(document, added).Ok?
    ensures KidList(AddedMetadata(document, added).value) == AddedKids(added)
  {
    if added != [] {
      var front, last := added[..|added| - 1], added[|added| - 1];
      MetadataKids(document, front);
      AddedKidsAppended(front, [last]);
      assert added == front + [last];
      var keys := AddedMetadata(document, added).value;
      KidListAppended(keys[..|keys| - 1], [keys[|keys| - 1]]);
      assert keys == AddedMetadata(document, front).value + [keys[|keys| - 1]];
    }
  }

  lemma AddedOfStages(record: Record, spec: UpdateSpec, rotated: Document, keyed: Draft, edited: Draft)
    requires EditKeys(Start(record, rotated), record, spec.keys) == Ok(keyed)
    requires EditDevices(keyed, record, spec.devices) == Ok(edited)
    ensures AddedKids(edited.added) == EditKids(spec.keys) + DeviceKids(spec.devices)
    ensures NoneKnown(record.keys, EditKids(spec.keys)) && NoneKnown(record.keys, DeviceKids(spec.devices))
  {
    EditKeysAdd(Start(record, rotated), record, spec.keys);
    EditDevicesAdd(keyed, record, spec.devices);
    assert AddedKids(Start(record, rotated).added) + EditKids(spec.keys) == EditKids(spec.keys);
  }

  lemma NewKidsOfSpec(record: Record, spec: UpdateSpec, setting: Setting)
    requires Build(record, spec, setting).Ok?
    requires var draft := Build(record, spec, setting).value; NewKeys(draft.document, draft, spec).Ok?
    ensures var draft := Build(record, spec, setting).value;
      KidList(NewKeys(draft.document, draft, spec).value) == SpecKids(spec)
    ensures NoneKnown(record.keys, SpecKids(spec))
  {
    var draft := Build(record, spec, setting).value;
    var rotated, keyed, edited := Stages(record, spec, setting);
    AddedOfStages(record, spec, rotated, keyed, edited);
    MetadataKids(draft.document, draft.added);
    if spec.rotation.Some? {
      var keys := NewKeys(draft.document, draft, spec).value;
      KidListAppended(AddedMetadata(draft.document, draft.added).value, [keys[|keys| - 1]]);
    }
  }

  lemma DistinctAppended(kids: seq<Kid>, more: seq<Kid>)
    requires forall kid :: kid in kids ==> kid !in more
    ensures Distinct(kids + more) <==> Distinct(kids) && Distinct(more)
  {
    var all := kids + more;
    if Distinct(all) {
      forall i, j | 0 <= i < j < |kids|
        ensures kids[i] != kids[j]
      {
        assert all[i] == kids[i] && all[j] == kids[j];
      }
      forall i, j | 0 <= i < j < |more|
        ensures more[i] != more[j]
      {
        assert all[|kids| + i] == more[i] && all[|kids| + j] == more[j];
      }
    }
    if Distinct(kids) && Distinct(more) {
      forall i, j | 0 <= i < j < |all|
        ensures all[i] != all[j]
      {
        if i < |kids| <= j {
          assert all[i] in kids && all[j] in more;
        }
      }
    }
  }

  /**
   Key ids after the commit: with unique ids before, they are unique afterwards if and only if the
   request does not introduce an id twice.
   */
  lemma KidsUniqueIff(record: Record, spec: UpdateSpec, setting: Setting)
    requires Distinct(KidList(record.keys)) && Build(record, spec, setting).Ok?
    requires var draft := Build(record, spec, setting).value; NewKeys(draft.document, draft, spec).Ok?
    ensures var draft := Build(record, spec, setting).value;
      Distinct(KidList(RetireAll(record.keys, RetiredKids(draft, spec)) + NewKeys(draft.document, draft, spec).value))
      <==> Distinct(SpecKids(spec))
  {
    var draft := Build(record, spec, setting).value;
    var retired := RetireAll(record.keys, RetiredKids(draft, spec));
    var added := NewKeys(draft.document, draft, spec).value;
    NewKidsOfSpec(record, spec, setting);
    assert KidList(retired) == KidList(record.keys);
    KidListAppended(retired, added);
    forall kid | kid in KidList(record.keys)
      ensures kid !in SpecKids(spec)
    {
      var i :| 0 <= i < |record.keys| && KidList(record.keys)[i] == kid;
      assert record.keys[i].kid == kid;
    }
    DistinctAppended(KidList(record.keys), SpecKids(spec));
  }

  // Consistency of the record after the commit

  /** The ids are published for authentication only. */
  ghost predicate Reserved(document: Document, kids: seq<Kid>) {
    forall kid :: kid in kids ==>
      && HasMethod(document.methods, kid) && kid !in document.assertion && kid !in document.agreement
      && forall device :: device in document.Devices() ==> kid != device.signing && kid != device.e2ee
  }

  lemma ReserveOne(document: Document, after: Document, keys: seq<KeyMetadata>, m: Method, kids: seq<Kid>)
    requires Coherent(document, keys) && Reserved(document, kids) && !HasMethod(document.methods, m.id)
    requires after == document.(methods := document.methods + [m], authentication := after.authentication)
    ensures Reserved(after, kids + [m.id])
  {
    ResolvesAppended(kids, document.methods, [m]);
    MethodAppended(document.methods, [m], m.id);
    assert [m][0].id == m.id;
    forall device | device in document.Devices()
      ensures m.id != device.signing && m.id != device.e2ee
    {
      assert Anchored(document, device);
    }
  }

  lemma RotationReserves(record: Record, spec: UpdateSpec, setting: Setting, rotated: Document)
    requires Coherent(record.document, record.keys) && RotationFresh(record.document, spec)
    requires spec.rotation.None? ==> rotated == record.document.WithoutProof()
    requires spec.rotation.Some? ==>
      Rotate(record.document.WithoutProof(), record, spec.rotation.value, setting.publicKey) == Ok(rotated)
    ensures Reserved(rotated, RotationKids(spec)) && NoneKnown(record.keys, RotationKids(spec))
  {
    if spec.rotation.Some? {
      var bare := record.document.WithoutProof();
      FinishCoherent(record.document, bare, record.keys);
      var m := Method(spec.rotation.value.newKid, setting.publicKey);
      ReserveOne(bare, rotated, record.keys, m, []);
      assert [] + [m.id] == RotationKids(spec);
    }
  }

  lemma {:induction false} EditKeysReserve(draft: Draft, record: Record, edits: seq<KeyEdit>, kids: seq<Kid>)
    requires Coherent(draft.document, record.keys) && Reserved(draft.document, kids) && NoneKnown(record.keys, kids)
    requires EditKeys(draft, record, edits).Ok?
    ensures Reserved(EditKeys(draft, record, edits).value.document, kids + EditKids(edits))
  {
    if edits == [] {
      assert kids + [] == kids;
    } else {
      var front, last := edits[..|edits| - 1], edits[|edits| - 1];
      var before := EditKeys(draft, record, front).value;
      EditKeysReserve(draft, record, front, kids);
      EditKeysCoherent(draft, record, front);
      EditKeysAdd(draft, record, front);
      var sofar := kids + EditKids(front);
      match last
      case AddKey(kid, publicKey) =>
        var after := EditKey(before, record, last).value.document;
        ReserveOne(before.document, after, record.keys, Method(kid, publicKey), sofar);
        assert kids + EditKids(edits) == sofar + [kid];
      case RemoveKey(kid) =>
        ResolvesKept(sofar, before.document.methods, {kid});
        assert kids + EditKids(edits) == sofar;
    }
  }

  lemma EditDeviceReserves(draft: Draft, record: Record, edit: DeviceEdit, kids: seq<Kid>)
    requires Reserved(draft.document, kids) && EditDevice(draft, record, edit).Ok?
    ensures Reserved(EditDevice(draft, record, edit).value.document, kids)
  {
    var document, devices := draft.document, draft.document.Devices();
    var after := EditDevice(draft, record, edit).value.document;
    match edit
    case AddDevice(device, s, e) =>
      ResolvesAppended(kids, document.methods, [Method(device.signing, s), Method(device.e2ee, e)]);
    case RemoveDevice(id) =>
      var removed := devices[DevicePosition(devices, id)];
      assert removed in devices;
      ResolvesKept(kids, document.methods, {removed.signing, removed.e2ee});
    case AddProfiles(id, _) =>
      forall device | device in after.Devices()
        ensures exists was :: was in devices && was.signing == device.signing && was.e2ee == device.e2ee
      {
        var i :| 0 <= i < |devices| && after.Devices()[i] == device;
        assert devices[i] in devices;
      }
  }

  lemma {:induction false} EditDevicesReserve(draft: Draft, record: Record, edits: seq<DeviceEdit>, kids: seq<Kid>)
    requires Reserved(draft.document, kids) && EditDevices(draft, record, edits).Ok?
    ensures Reserved(EditDevices(draft, record, edits).value.document, kids)
  {
    if edits != [] {
      EditDevicesReserve(draft, record, edits[..|edits| - 1], kids);
      EditDeviceReserves(EditDevices(draft, record, edits[..|edits| - 1]).value, record, edits[|edits| - 1], kids);
    }
  }

  /** Every request-signing id the batch introduces is published for authentication only. */
  lemma NewRequestKeysReserved(record: Record, spec: UpdateSpec, setting: Setting)
    requires Coherent(record.document, record.keys) && Build(record, spec, setting).Ok?
    requires RotationFresh(record.document, spec)
    ensures Reserved(Build(record, spec, setting).value.document, RotationKids(spec) + EditKids(spec.keys))
  {
    var rotated, keyed, edited := Stages(record, spec, setting);
    RotatedCoherent(record, spec, setting, rotated);
    RotationReserves(record, spec, setting, rotated);
    EditKeysReserve(Start(record, rotated), record, spec.keys, RotationKids(spec));
    EditDevicesReserve(keyed, record, spec.devices, RotationKids(spec) + EditKids(spec.keys));
  }

  /** A request-signing key among those added was added by a key edit. */
  ghost predicate RequestKeysFrom(added: seq<AddedKey>, kids: seq<Kid>) {
    forall key :: key in added && key.role == RequestSigning ==> key.kid in kids
  }

  lemma {:induction false} EditKeysRequestKeys(draft: Draft, record: Record, edits: seq<KeyEdit>)
    requires draft.added == [] && EditKeys(draft, record, edits).Ok?
    ensures RequestKeysFrom(EditKeys(draft, record, edits).value.added, EditKids(edits))
  {
    if edits != [] {
      EditKeysRequestKeys(draft, record, edits[..|edits| - 1]);
    }
  }

  lemma {:induction false} EditDevicesRequestKeys(draft: Draft, record: Record, edits: seq<DeviceEdit>, kids: seq<Kid>)
    requires RequestKeysFrom(draft.added, kids) && EditDevices(draft, record, edits).Ok?
    ensures RequestKeysFrom(EditDevices(draft, record, edits).value.added, kids)
  {
    if edits != [] {
      EditDevicesRequestKeys(draft, record, edits[..|edits| - 1], kids);
    }
  }

  lemma {:induction false} MetadataRequestKeys(document: Document, added: seq<AddedKey>, kids: seq<Kid>)
    requires RequestKeysFrom(added, kids) && AddedMetadata(document, added).Ok?
    ensures forall key :: key in AddedMetadata(document, added).value && key.role == RequestSigning ==> key.kid in kids
  {
    if added != [] {
      var front, last := added[..|added| - 1], added[|added| - 1];
      assert last in added && forall key :: key in front ==> key in added;
      MetadataRequestKeys(document, front, kids);
    }
  }

  lemma NewRequestKeys(record: Record, spec: UpdateSpec, setting: Setting, key: KeyMetadata)
    requires Build(record, spec, setting).Ok?
    requires var draft := Build(record, spec, setting).value;
      NewKeys(draft.document, draft, spec).Ok? && key in NewKeys(draft.document, draft, spec).value
    requires key.role == RequestSigning
    ensures key.kid in RotationKids(spec) + EditKids(spec.keys)
  {
    var draft := Build(record, spec, setting).value;
    var rotated, keyed, edited := Stages(record, spec, setting);
    EditKeysRequestKeys(Start(record, rotated), record, spec.keys);
    EditDevicesRequestKeys(keyed, record, spec.devices, EditKids(spec.keys));
    MetadataRequestKeys(draft.document, draft.added, EditKids(spec.keys));
  }

  /** A revision the store accepts: the batch goes through and every new key is found in the candidate. */
  predicate Acceptable(record: Record, spec: UpdateSpec, setting: Setting) {
    var built := Build(record, spec, setting);
    built.Ok? && NewKeys(built.value.document, built.value, spec).Ok?
  }

  /** The keys of the record once an accepted revision commits. */
  function KeysAfter(record: Record, spec: UpdateSpec, setting: Setting): seq<KeyMetadata>
    requires Acceptable(record, spec, setting)
  {
    var draft := Build(record, spec, setting).value;
    RetireAll(record.keys, RetiredKids(draft, spec)) + NewKeys(draft.document, draft, spec).value
  }

  /**
   Candidate consistency: from a coherent record, an accepted revision whose rotation reuses no
   published id commits to a coherent record, its own new keys included.
   */
  lemma CandidateCoherent(record: Record, spec: UpdateSpec, setting: Setting)
    requires Coherent(record.document, record.keys) && Acceptable(record, spec, setting)
    requires RotationFresh(record.document, spec)
    ensures Coherent(Build(record, spec, setting).value.document, KeysAfter(record, spec, setting))
  {
    var draft := Build(record, spec, setting).value;
    var keys := RetireAll(record.keys, RetiredKids(draft, spec));
    CandidateFitsKeys(record, spec, setting);
    NewRequestKeysReserved(record, spec, setting);
    forall key | key in KeysAfter(record, spec, setting) && key.role == RequestSigning
      ensures key.kid !in draft.document.assertion && key.kid !in draft.document.agreement
      ensures forall device :: device in draft.document.Devices() ==>
        key.kid != device.signing && key.kid != device.e2ee
    {
      if key in keys {
        var i :| 0 <= i < |keys| && keys[i] == key;
        assert record.keys[i] in record.keys && record.keys[i].kid == key.kid;
      } else {
        NewRequestKeys(record, spec, setting, key);
      }
    }
  }

  // A batch that does not undo its own additions introduces every id once

  /** No device the batch adds is also removed by it. */
  ghost predicate KeepsItsDevices(edits: seq<DeviceEdit>) {
    forall edit :: edit in edits && edit.AddDevice? ==> RemoveDevice(edit.device.id) !in edits
  }

  /** The ids introduced so far are distinct, published, and used by no device that was there before. */
  ghost predicate Introduced(document: Document, kids: seq<Kid>, ids: set<string>) {
    && Distinct(kids)
    && Resolves(kids, document.methods)
    && forall device :: device in document.Devices() ==>
         device.id in ids || (device.signing !in kids && device.e2ee !in kids)
  }

  lemma IntroduceOne(document: Document, after: Document, keys: seq<KeyMetadata>, m: Method, kids: seq<Kid>,
                     ids: set<string>)
    requires Introduced(document, kids, ids) && !HasMethod(document.methods, m.id)
    requires forall device :: device in document.Devices() ==>
      HasMethod(document.methods, device.signing) && HasMethod(document.methods, device.e2ee)
    requires after == document.(methods := document.methods + [m], authentication := after.authentication)
    ensures Introduced(after, kids + [m.id], ids)
  {
    assert m.id !in kids;
    ResolvesAppended(kids, document.methods, [m]);
    MethodAppended(document.methods, [m], m.id);
    assert [m][0].id == m.id;
    forall device | device in after.Devices()
      ensures device.id in ids || (device.signing !in kids + [m.id] && device.e2ee !in kids + [m.id])
    {
      assert device in document.Devices();
    }
  }

  lemma {:induction false} EditKeysIntroduce(draft: Draft, record: Record, edits: seq<KeyEdit>, kids: seq<Kid>)
    requires Coherent(draft.document, record.keys) && Introduced(draft.document, kids, {})
    requires NoneKnown(record.keys, kids)
    requires EditKeys(draft, record, edits).Ok?
    ensures Introduced(EditKeys(draft, record, edits).value.document, kids + EditKids(edits), {})
  {
    if edits == [] {
      assert kids + [] == kids;
    } else {
      var front, last := edits[..|edits| - 1], edits[|edits| - 1];
      var before := EditKeys(draft, record, front).value;
      EditKeysIntroduce(draft, record, front, kids);
      EditKeysCoherent(draft, record, front);
      EditKeysAdd(draft, record, front);
      var sofar := kids + EditKids(front);
      match last
      case AddKey(kid, publicKey) =>
        forall device | device in before.document.Devices()
          ensures HasMethod(before.document.methods, device.signing) && HasMethod(before.document.methods, device.e2ee)
        {
          assert Anchored(before.document, device);
        }
        IntroduceOne(before.document, EditKey(before, record, last).value.document, record.keys,
                     Method(kid, publicKey), sofar, {});
        assert kids + EditKids(edits) == sofar + [kid];
      case RemoveKey(kid) =>
        ResolvesKept(sofar, before.document.methods, {kid});
        assert kids + EditKids(edits) == sofar;
    }
  }

  ghost function AddedIds(edits: seq<DeviceEdit>): set<string> {
    set edit | edit in edits && edit.AddDevice? :: edit.device.id
  }

  lemma EditDeviceIntroduces(draft: Draft, record: Record, edit: DeviceEdit, kids: seq<Kid>, ids: set<string>)
    requires Coherent(draft.document, record.keys) && Introduced(draft.document, kids, ids)
    requires edit.RemoveDevice? ==> edit.id !in ids
    requires EditDevice(draft, record, edit).Ok?
    ensures Introduced(EditDevice(draft, record, edit).value.document, kids + DeviceKids([edit]),
                       ids + AddedIds([edit]))
  {
    var document := draft.document;
    var devices := document.Devices();
    var after := EditDevice(draft, record, edit).value.document;
    assert [edit][..0] == [];
    match edit
    case AddProfiles(id, profiles) =>
      assert kids + DeviceKids([edit]) == kids;
      forall device | device in after.Devices()
        ensures device.id in ids || (device.signing !in kids && device.e2ee !in kids)
      {
        var i :| 0 <= i < |devices| && after.Devices()[i] == device;
        assert devices[i] in devices;
      }
    case AddDevice(device, signingKey, e2eeKey) =>
      var s, e := Method(device.signing, signingKey), Method(device.e2ee, e2eeKey);
      forall other | other in devices
        ensures HasMethod(document.methods, other.signing) && HasMethod(document.methods, other.e2ee)
      {
        assert Anchored(document, other);
      }
      AddDeviceIntroduces(document, after, device, s, e, kids, ids);
      assert device.id in AddedIds([edit]) by {
        assert edit in [edit];
      }
      assert AddedIds([edit]) == {device.id};
      assert DeviceKids([edit]) == [device.signing, device.e2ee];
    case RemoveDevice(id) =>
      assert kids + DeviceKids([edit]) == kids;
      var removed := devices[DevicePosition(devices, id)];
      assert removed in devices;
      ResolvesKept(kids, document.methods, {removed.signing, removed.e2ee});
      forall device | device in after.Devices()
        ensures device in devices
      {
      }
  }

  lemma AddDeviceIntroduces(document: Document, after: Document, device: Device, s: Method, e: Method, kids: seq<Kid>,
                            ids: set<string>)
    requires Introduced(document, kids, ids) && s.id == device.signing && e.id == device.e2ee && s.id != e.id
    requires forall other :: other in document.Devices() ==>
      HasMethod(document.methods, other.signing) && HasMethod(document.methods, other.e2ee)
    requires !HasMethod(document.methods, s.id) && !HasMethod(document.methods, e.id)
    requires after.methods == document.methods + [s, e] && after.Devices() == document.Devices() + [device]
    ensures Introduced(after, kids + [s.id, e.id], ids + {device.id})
  {
    assert s.id !in kids && e.id !in kids;
    ResolvesAppended(kids, document.methods, [s, e]);
    MethodAppended(document.methods, [s, e], s.id);
    MethodAppended(document.methods, [s, e], e.id);
    assert [s, e][0].id == s.id && [s, e][1].id == e.id;
  }

  lemma DeviceKidsLast(edits: seq<DeviceEdit>, front: seq<DeviceEdit>, last: DeviceEdit)
    requires edits == front + [last]
    ensures DeviceKids(edits) == DeviceKids(front) + DeviceKids([last])
    ensures AddedIds(edits) == AddedIds(front) + AddedIds([last])
  {
    assert edits[..|edits| - 1] == front && [last][..0] == [];
    assert forall edit :: edit in edits <==> edit in front || edit in [last];
  }

  lemma KeepsItsDevicesFront(edits: seq<DeviceEdit>, front: seq<DeviceEdit>, last: DeviceEdit)
    requires edits == front + [last] && KeepsItsDevices(edits)
    ensures KeepsItsDevices(front) && (last.RemoveDevice? ==> last.id !in AddedIds(front))
  {
    assert forall edit :: edit in front ==> edit in edits;
    assert last in edits;
  }

  lemma EditIntroduces(before: Draft, record: Record, edits: seq<DeviceEdit>, front: seq<DeviceEdit>, last: DeviceEdit,
                       after: Draft, kids: seq<Kid>)
    requires Coherent(before.document, record.keys) && edits == front + [last] && KeepsItsDevices(edits)
    requires Introduced(before.document, kids + DeviceKids(front), AddedIds(front))
    requires EditDevice(before, record, last) == Ok(after)
    ensures Introduced(after.document, kids + DeviceKids(edits), AddedIds(edits))
  {
    KeepsItsDevicesFront(edits, front, last);
    EditDeviceIntroduces(before, record, last, kids + DeviceKids(front), AddedIds(front));
    IntroduceLast(after.document, edits, front, last, kids);
  }

  lemma {:induction false} EditDevicesIntroduce(draft: Draft, record: Record, edits: seq<DeviceEdit>, after: Draft,
                                                kids: seq<Kid>)
    requires Coherent(draft.document, record.keys) && Introduced(draft.document, kids, {}) && KeepsItsDevices(edits)
    requires EditDevices(draft, record, edits) == Ok(after)
    ensures Introduced(after.document, kids + DeviceKids(edits), AddedIds(edits))
  {
    if edits == [] {
      assert kids + [] == kids;
    } else {
      var front, last := edits[..|edits| - 1], edits[|edits| - 1];
      var before := EditDevices(draft, record, front).value;
      assert edits == front + [last];
      KeepsItsDevicesFront(edits, front, last);
      EditDevicesIntroduce(draft, record, front, before, kids);
      EditDevicesCoherent(draft, record, front);
      EditIntroduces(before, record, edits, front, last, after, kids);
    }
  }

  lemma IntroduceLast(document: Document, edits: seq<DeviceEdit>, front: seq<DeviceEdit>, last: DeviceEdit,
                      kids: seq<Kid>)
    requires edits == front + [last]
    requires Introduced(document, kids + DeviceKids(front) + DeviceKids([last]), AddedIds(front) + AddedIds([last]))
    ensures Introduced(document, kids + DeviceKids(edits), AddedIds(edits))
  {
    DeviceKidsLast(edits, front, last);
    assert kids + DeviceKids(edits) == kids + DeviceKids(front) + DeviceKids([last]);
  }

  lemma DistinctSwap(kids: seq<Kid>, more: seq<Kid>)
    requires Distinct(kids + more)
    ensures Distinct(more + kids)
  {
    var all, swapped := kids + more, more + kids;
    forall i, j | 0 <= i < j < |swapped|
      ensures swapped[i] != swapped[j]
    {
      var x := if i < |more| then i + |kids| else i - |more|;
      var y := if j < |more| then j + |kids| else j - |more|;
      assert swapped[i] == all[x] && swapped[j] == all[y] && x != y;
      assert x < y ==> all[x] != all[y];
      assert y < x ==> all[y] != all[x];
    }
  }

  lemma RotationIntroduces(record: Record, spec: UpdateSpec, publicKey: PublicKey, rotated: Document)
    requires Coherent(record.document, record.keys) && RotationFresh(record.document, spec)
    requires spec.rotation.None? ==> rotated == record.document.WithoutProof()
    requires spec.rotation.Some? ==>
      Rotate(record.document.WithoutProof(), record, spec.rotation.value, publicKey) == Ok(rotated)
    ensures Coherent(rotated, record.keys) && Introduced(rotated, RotationKids(spec), {})
    ensures NoneKnown(record.keys, RotationKids(spec))
  {
    var bare := record.document.WithoutProof();
    FinishCoherent(record.document, bare, record.keys);
    assert Introduced(bare, [], {});
    if spec.rotation.Some? {
      var m := Method(spec.rotation.value.newKid, publicKey);
      forall device | device in bare.Devices()
        ensures HasMethod(bare.methods, device.signing) && HasMethod(bare.methods, device.e2ee)
      {
        assert Anchored(bare, device);
      }
      IntroduceOne(bare, rotated, record.keys, m, [], {});
      assert [] + [m.id] == RotationKids(spec);
      RotateCoherent(bare, record, spec.rotation.value, publicKey);
    }
  }

  lemma StagesIntroduce(record: Record, spec: UpdateSpec, rotated: Document, keyed: Draft, edited: Draft,
                        kids: seq<Kid>)
    requires Coherent(rotated, record.keys) && Introduced(rotated, kids, {})
    requires NoneKnown(record.keys, kids) && KeepsItsDevices(spec.devices)
    requires EditKeys(Start(record, rotated), record, spec.keys) == Ok(keyed)
    requires EditDevices(keyed, record, spec.devices) == Ok(edited)
    ensures Introduced(edited.document, kids + EditKids(spec.keys) + DeviceKids(spec.devices), AddedIds(spec.devices))
  {
    EditKeysIntroduce(Start(record, rotated), record, spec.keys, kids);
    EditKeysCoherent(Start(record, rotated), record, spec.keys);
    EditDevicesIntroduce(keyed, record, spec.devices, edited, kids + EditKids(spec.keys));
  }

  lemma StagesDistinct(record: Record, spec: UpdateSpec, rotated: Document, keyed: Draft, edited: Draft)
    requires Coherent(rotated, record.keys) && Introduced(rotated, RotationKids(spec), {})
    requires NoneKnown(record.keys, RotationKids(spec)) && KeepsItsDevices(spec.devices)
    requires EditKeys(Start(record, rotated), record, spec.keys) == Ok(keyed)
    requires EditDevices(keyed, record, spec.devices) == Ok(edited)
    ensures Distinct(SpecKids(spec))
  {
    StagesIntroduce(record, spec, rotated, keyed, edited, RotationKids(spec));
    IntroducedSwap(edited.document, RotationKids(spec), EditKids(spec.keys), DeviceKids(spec.devices),
                   AddedIds(spec.devices));
  }

  lemma IntroducedSwap(document: Document, kids: seq<Kid>, added: seq<Kid>, devices: seq<Kid>, ids: set<string>)
    requires Introduced(document, kids + added + devices, ids)
    ensures Distinct(added + devices + kids)
  {
    assert kids + added + devices == kids + (added + devices);
    DistinctSwap(kids, added + devices);
  }

  /**
   An accepted batch on a coherent document introduces no key id twice, unless it removes a device it
   added or rotates to a published id. With `KidsUniqueIff`, key ids then stay unique.
   */
  lemma BatchKidsDistinct(record: Record, spec: UpdateSpec, setting: Setting)
    requires Coherent(record.document, record.keys) && Build(record, spec, setting).Ok?
    requires RotationFresh(record.document, spec) && KeepsItsDevices(spec.devices)
    ensures Distinct(SpecKids(spec))
  {
    var rotated, keyed, edited := Stages(record, spec, setting);
    RotationIntroduces(record, spec, setting.publicKey, rotated);
    StagesDistinct(record, spec, rotated, keyed, edited);
  }

  // Exactly when an accepted revision leaves a sound record

  /** The document is coherent with the keys, and no key id repeats. */
  ghost predicate Sound(document: Document, keys: seq<KeyMetadata>) {
    Coherent(document, keys) && Distinct(KidList(keys))
  }

  /** The request reuses no id: not one the document publishes for its rotation, nor one of its own. */
  ghost predicate ReusesNothing(document: Document, spec: UpdateSpec) {
    RotationFresh(document, spec) && Distinct(SpecKids(spec))
  }

  lemma RotationPublished(document: Document, draft: Draft, spec: UpdateSpec)
    requires NewKeys(document, draft, spec).Ok? && spec.rotation.Some?
    ensures HasMethod(document.methods, spec.rotation.value.newKid)
  {
  }

  lemma DeviceKidRepeats(spec: UpdateSpec)
    requires spec.rotation.Some? && spec.rotation.value.newKid in DeviceKids(spec.devices)
    ensures !Distinct(SpecKids(spec))
  {
    var kids, devices := SpecKids(spec), DeviceKids(spec.devices);
    var i :| 0 <= i < |devices| && devices[i] == spec.rotation.value.newKid;
    assert kids[|EditKids(spec.keys)| + i] == kids[|kids| - 1];
  }

  lemma SpoiledRepeats(record: Record, spec: UpdateSpec, setting: Setting, draft: Draft)
    requires Build(record, spec, setting) == Ok(draft) && NewKeys(draft.document, draft, spec).Ok?
    requires !RotationFresh(record.document, spec) && Distinct(SpecKids(spec))
    ensures !UniqueMethods(draft.document.methods)
  {
    RotationSpoils(record, spec, setting);
    RotationPublished(draft.document, draft, spec);
    CountOfOne(draft.document.methods, spec.rotation.value.newKid);
    if spec.rotation.value.newKid in DeviceKids(spec.devices) {
      DeviceKidRepeats(spec);
    }
  }

  /**
   Exactly when a revision spoils the record: from a sound record, an accepted revision commits to a
   sound record if and only if the request reuses no id. The store itself compares the new id of a
   rotation with its own keys only, and the ids of a batch with the methods still there.
   */
  lemma CandidateCoherentIff(record: Record, spec: UpdateSpec, setting: Setting)
    requires Sound(record.document, record.keys) && Acceptable(record, spec, setting)
    ensures Sound(Build(record, spec, setting).value.document, KeysAfter(record, spec, setting))
      <==> ReusesNothing(record.document, spec)
  {
    KidsUniqueIff(record, spec, setting);
    if RotationFresh(record.document, spec) {
      CandidateCoherent(record, spec, setting);
    } else if Distinct(SpecKids(spec)) {
      SpoiledRepeats(record, spec, setting, Build(record, spec, setting).value);
    }
  }

  // The public key recorded for a rotated key

  lemma {:induction false} FindAppended(methods: seq<Method>, more: seq<Method>, kid: Kid)
    ensures FindMethod(methods + more, kid)
      == if FindMethod(methods, kid).Some? then FindMethod(methods, kid) else FindMethod(more, kid)
  {
    if methods == [] {
      assert methods + more == more;
    } else {
      assert (methods + more)[1..] == methods[1..] + more;
      FindAppended(methods[1..], more, kid);
    }
  }

  lemma FindSingle(m: Method, kid: Kid)
    ensures FindMethod([m], kid) == if m.id == kid then Some(m) else None
  {
    assert [m][1..] == [];
  }

  lemma FindLastKept(methods: seq<Method>, front: seq<Method>, last: Method, rest: seq<Method>, kept: seq<Method>,
                     kids: set<Kid>, kid: Kid)
    requires FindMethod(rest, kid) == if kid in kids then None else FindMethod(front, kid)
    requires methods == front + [last] && kept == if last.id in kids then rest else rest + [last]
    ensures FindMethod(kept, kid) == if kid in kids then None else FindMethod(methods, kid)
  {
    FindSingle(last, kid);
    FindAppended(front, [last], kid);
    FindAppended(rest, [last], kid);
  }

  lemma WithoutLast(methods: seq<Method>, front: seq<Method>, last: Method, kids: set<Kid>)
    requires methods != [] && front == methods[..|methods| - 1] && last == methods[|methods| - 1]
    ensures methods == front + [last]
    ensures WithoutMethods(methods, kids)
      == if last.id in kids then WithoutMethods(front, kids) else WithoutMethods(front, kids) + [last]
  {
  }

  lemma {:induction false} FindKept(methods: seq<Method>, kids: set<Kid>, kid: Kid)
    ensures FindMethod(WithoutMethods(methods, kids), kid) == if kid in kids then None else FindMethod(methods, kid)
  {
    if methods != [] {
      var front, last := methods[..|methods| - 1], methods[|methods| - 1];
      FindKept(front, kids, kid);
      WithoutLast(methods, front, last, kids);
      FindLastKept(methods, front, last, WithoutMethods(front, kids), WithoutMethods(methods, kids), kids, kid);
    }
  }

  lemma {:induction false} EditKeysFind(draft: Draft, record: Record, edits: seq<KeyEdit>, kid: Kid)
    requires EditKeys(draft, record, edits).Ok? && !HasKey(record.keys, kid)
    requires FindMethod(draft.document.methods, kid).Some?
    ensures FindMethod(EditKeys(draft, record, edits).value.document.methods, kid)
      == FindMethod(draft.document.methods, kid)
  {
    if edits != [] {
      var before := EditKeys(draft, record, edits[..|edits| - 1]).value;
      EditKeysFind(draft, record, edits[..|edits| - 1], kid);
      match edits[|edits| - 1]
      case AddKey(added, publicKey) => FindAppended(before.document.methods, [Method(added, publicKey)], kid);
      case RemoveKey(gone) => FindKept(before.document.methods, {gone}, kid);
    }
  }

  /** The id resolves to the given method or to none, unless the edits add it for a device. */
  predicate OnlyResolvesTo(methods: seq<Method>, edits: seq<DeviceEdit>, kid: Kid, m: Method) {
    FindMethod(methods, kid) == None || FindMethod(methods, kid) == Some(m) || kid in DeviceKids(edits)
  }

  lemma EditDeviceFinds(draft: Draft, record: Record, edits: seq<DeviceEdit>, edit: DeviceEdit, kid: Kid, m: Method)
    requires OnlyResolvesTo(draft.document.methods, edits, kid, m) && EditDevice(draft, record, edit).Ok?
    ensures OnlyResolvesTo(EditDevice(draft, record, edit).value.document.methods, edits + [edit], kid, m)
  {
    var methods, devices := draft.document.methods, draft.document.Devices();
    assert (edits + [edit])[..|edits + [edit]| - 1] == edits;
    match edit
    case AddDevice(device, s, e) => FindAppended(methods, [Method(device.signing, s), Method(device.e2ee, e)], kid);
    case RemoveDevice(id) =>
      var removed := devices[DevicePosition(devices, id)];
      FindKept(methods, {removed.signing, removed.e2ee}, kid);
    case AddProfiles(_, _) =>
  }

  lemma LastEdit(draft: Draft, record: Record, edits: seq<DeviceEdit>, after: Draft) returns (before: Draft)
    requires edits != [] && EditDevices(draft, record, edits) == Ok(after)
    ensures EditDevices(draft, record, edits[..|edits| - 1]) == Ok(before)
    ensures EditDevice(before, record, edits[|edits| - 1]) == Ok(after)
  {
    before := EditDevices(draft, record, edits[..|edits| - 1]).value;
  }

  ghost predicate KeptByEdits(record: Record, holds: (Draft, seq<DeviceEdit>) -> bool) {
    forall before, front, last :: holds(before, front) && EditDevice(before, record, last).Ok? ==>
      holds(EditDevice(before, record, last).value, front + [last])
  }

  lemma KeptByLast(before: Draft, record: Record, front: seq<DeviceEdit>, last: DeviceEdit,
                   holds: (Draft, seq<DeviceEdit>) -> bool)
    requires KeptByEdits(record, holds) && holds(before, front) && EditDevice(before, record, last).Ok?
    ensures holds(EditDevice(before, record, last).value, front + [last])
  {
  }

  /** What holds before the first edit and is kept by each holds of the draft after all of them. */
  lemma {:induction false} EveryEdit(draft: Draft, record: Record, edits: seq<DeviceEdit>, after: Draft,
                                     holds: (Draft, seq<DeviceEdit>) -> bool)
    requires EditDevices(draft, record, edits) == Ok(after) && holds(draft, []) && KeptByEdits(record, holds)
    ensures holds(after, edits)
  {
    if edits != [] {
      var front, last := edits[..|edits| - 1], edits[|edits| - 1];
      var before := LastEdit(draft, record, edits, after);
      EveryEdit(draft, record, front, before, holds);
      KeptByLast(before, record, front, last, holds);
      assert edits == front + [last];
    }
  }

  lemma EditDevicesFind(draft: Draft, record: Record, edits: seq<DeviceEdit>, after: Draft, kid: Kid, m: Method)
    requires FindMethod(draft.document.methods, kid) == Some(m) && EditDevices(draft, record, edits) == Ok(after)
    ensures OnlyResolvesTo(after.document.methods, edits, kid, m)
  {
    var holds := (before: Draft, front: seq<DeviceEdit>) => OnlyResolvesTo(before.document.methods, front, kid, m);
    forall before, front, last | holds(before, front) && EditDevice(before, record, last).Ok?
      ensures holds(EditDevice(before, record, last).value, front + [last])
    {
      EditDeviceFinds(before, record, front, last, kid, m);
    }
    EveryEdit(draft, record, edits, after, holds);
  }

  /** An id published for authentication only is added for no device. */
  lemma {:induction false} ReservedNotAdded(draft: Draft, record: Record, edits: seq<DeviceEdit>, kid: Kid)
    requires Reserved(draft.document, [kid]) && EditDevices(draft, record, edits).Ok?
    ensures kid !in DeviceKids(edits)
  {
    if edits != [] {
      ReservedNotAdded(draft, record, edits[..|edits| - 1], kid);
      EditDevicesReserve(draft, record, edits[..|edits| - 1], [kid]);
      assert kid in [kid];
    }
  }

  lemma FreshNotAdded(record: Record, spec: UpdateSpec, setting: Setting)
    requires Coherent(record.document, record.keys) && Build(record, spec, setting).Ok? && spec.rotation.Some?
    requires RotationFresh(record.document, spec)
    ensures spec.rotation.value.newKid !in DeviceKids(spec.devices)
  {
    var kid := spec.rotation.value.newKid;
    var rotated, keyed, edited := Stages(record, spec, setting);
    RotatedCoherent(record, spec, setting, rotated);
    RotationReserves(record, spec, setting, rotated);
    EditKeysReserve(Start(record, rotated), record, spec.keys, RotationKids(spec));
    assert forall k :: k in [kid] ==> k in RotationKids(spec) + EditKids(spec.keys);
    ReservedNotAdded(keyed, record, spec.devices, kid);
  }

  /** The method the id of a rotation resolves to: the one published before, if there is one, or the new key. */
  function RotatedMethod(record: Record, spec: UpdateSpec, setting: Setting): Method
    requires spec.rotation.Some?
  {
    var published := FindMethod(record.document.methods, spec.rotation.value.newKid);
    if published.Some? then published.value else Method(spec.rotation.value.newKid, setting.publicKey)
  }

  lemma RotationResolves(record: Record, spec: UpdateSpec, setting: Setting)
    requires Build(record, spec, setting).Ok? && spec.rotation.Some?
    ensures OnlyResolvesTo(Build(record, spec, setting).value.document.methods, spec.devices,
                           spec.rotation.value.newKid, RotatedMethod(record, spec, setting))
  {
    var kid := spec.rotation.value.newKid;
    var rotated, keyed, edited := Stages(record, spec, setting);
    FindAppended(record.document.methods, [Method(kid, setting.publicKey)], kid);
    EditKeysFind(Start(record, rotated), record, spec.keys, kid);
    EditDevicesFind(keyed, record, spec.devices, edited, kid, RotatedMethod(record, spec, setting));
  }

  lemma NewKeysLast(document: Document, draft: Draft, spec: UpdateSpec)
    requires NewKeys(document, draft, spec).Ok? && spec.rotation.Some?
    ensures var keys := NewKeys(document, draft, spec).value;
      var found := FindMethod(document.methods, spec.rotation.value.newKid);
      && |keys| > 0 && found.Some?
      && keys[|keys| - 1]
         == KeyMetadata(spec.rotation.value.newKid, RequestSigning, Managed, KeyActive, false, 1, found.value.publicKey)
  {
  }

  /**
   The public key a rotation records, for every accepted revision of a coherent record. If the id was
   not published it is the new key, whose secret the store seals. If it was, the record takes the
   public key someone else published under it, unless the request removes that key and adds the id
   again for a device.
   */
  lemma RotatedKeyIs(record: Record, spec: UpdateSpec, setting: Setting)
    requires Coherent(record.document, record.keys) && Acceptable(record, spec, setting) && spec.rotation.Some?
    requires RotationFresh(record.document, spec) || spec.rotation.value.newKid !in DeviceKids(spec.devices)
    ensures var draft := Build(record, spec, setting).value;
      var keys := NewKeys(draft.document, draft, spec).value;
      && |keys| > 0 && keys[|keys| - 1].kid == spec.rotation.value.newKid && Sealed(keys[|keys| - 1])
      && keys[|keys| - 1].publicKey == RotatedMethod(record, spec, setting).publicKey
      && (RotationFresh(record.document, spec) ==> keys[|keys| - 1].publicKey == setting.publicKey)
  {
    var draft := Build(record, spec, setting).value;
    if RotationFresh(record.document, spec) {
      FreshNotAdded(record, spec, setting);
    }
    RotationResolves(record, spec, setting);
    NewKeysLast(draft.document, draft, spec);
  }
}
