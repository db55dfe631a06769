/**
 What a batch of edits does to the device this store holds keys for: it stays authorized by the
 candidate if and only if the profiles the batch gives it are compatible with the recorded ones.
 */
module LocalDevice {
  import opened Model
  import opened Candidate
  import opened Adoption
  import opened CandidateConsistency

  /** The profiles a device ends up with when only the edits that extend them are applied. */
  function ProfilesAfter(edits: seq<DeviceEdit>, id: string, profiles: seq<string>): seq<string> {
    if edits == [] then profiles
    else
      var before := ProfilesAfter(edits[..|edits| - 1], id, profiles);
      var last := edits[|edits| - 1];
      if last.AddProfiles? && last.id == id then MergeProfiles(before, last.profiles) else before
  }

  function EntryOf(local: LocalAuthorization, profiles: seq<string>): Device {
    Device(local.device, local.signing, local.e2ee, profiles)
  }

  /** The key is published under the id, and no other key is. */
  ghost predicate Publishes(methods: seq<Method>, kid: Kid, publicKey: PublicKey) {
    && Method(kid, publicKey) in methods
    && forall m :: m in methods && m.id == kid ==> m.publicKey == publicKey
  }

  ghost predicate ListedAt(devices: seq<Device>, at: nat, entry: Device) {
    && at < |devices| && devices[at] == entry
    && forall i :: 0 <= i < |devices| && i != at ==> Apart(devices[i], entry)
  }

  /** The entry is listed, and shares neither its id nor a key with another. */
  ghost predicate Listed(devices: seq<Device>, entry: Device) {
    exists at :: ListedAt(devices, at, entry)
  }

  /** The document lists the local device with these profiles, apart from every other, and publishes its two keys. */
  ghost predicate Holds(document: Document, local: LocalAuthorization, s: PublicKey, e: PublicKey,
                        profiles: seq<string>) {
    && Listed(document.Devices(), EntryOf(local, profiles))
    && Publishes(document.methods, local.signing, s)
    && Publishes(document.methods, local.e2ee, e)
    && local.signing in document.authentication
    && local.signing in document.assertion
    && local.e2ee in document.agreement
  }

  /** The record knows the two keys of the local device, and they sign no requests. */
  ghost predicate Owns(record: Record, local: LocalAuthorization) {
    && record.local == Some(local) && local.signing != local.e2ee
    && HasKey(record.keys, local.signing) && HasKey(record.keys, local.e2ee)
    && forall key :: key in record.keys && key.role == RequestSigning ==>
         key.kid != local.signing && key.kid != local.e2ee
  }

  lemma PublishesAppended(methods: seq<Method>, more: seq<Method>, kid: Kid, publicKey: PublicKey)
    requires Publishes(methods, kid, publicKey) && forall m :: m in more ==> m.id != kid
    ensures Publishes(methods + more, kid, publicKey)
  {
  }

  lemma {:induction false} FindPublished(methods: seq<Method>, kid: Kid, publicKey: PublicKey)
    requires Publishes(methods, kid, publicKey)
    ensures FindMethod(methods, kid) == Some(Method(kid, publicKey))
  {
    assert FindMethod(methods, kid).value in methods;
  }

  lemma PositionOf(devices: seq<Device>, at: nat, entry: Device)
    requires ListedAt(devices, at, entry)
    ensures DevicePosition(devices, entry.id) == at && SoleDevice(devices, entry.id)
  {
    assert DevicePosition(devices, entry.id) <= at;
    var rest := devices[at + 1..];
    var next := DevicePosition(rest, entry.id);
    assert next < |rest| ==> Apart(devices[at + 1 + next], entry);
  }

  // Holding on to the local device through each edit

  lemma RotateHolds(document: Document, record: Record, rotation: Rotation, publicKey: PublicKey,
                    local: LocalAuthorization, s: PublicKey, e: PublicKey, profiles: seq<string>)
    requires Holds(document, local, s, e, profiles) && Owns(record, local)
    requires Rotate(document, record, rotation, publicKey).Ok?
    ensures Holds(Rotate(document, record, rotation, publicKey).value, local, s, e, profiles)
  {
    PublishesAppended(document.methods, [Method(rotation.newKid, publicKey)], local.signing, s);
    PublishesAppended(document.methods, [Method(rotation.newKid, publicKey)], local.e2ee, e);
  }

  lemma EditKeyHolds(draft: Draft, record: Record, edit: KeyEdit,
                     local: LocalAuthorization, s: PublicKey, e: PublicKey, profiles: seq<string>)
    requires Holds(draft.document, local, s, e, profiles) && Owns(record, local)
    requires EditKey(draft, record, edit).Ok?
    ensures Holds(EditKey(draft, record, edit).value.document, local, s, e, profiles)
  {
    match edit
    case AddKey(kid, publicKey) =>
      PublishesAppended(draft.document.methods, [Method(kid, publicKey)], local.signing, s);
      PublishesAppended(draft.document.methods, [Method(kid, publicKey)], local.e2ee, e);
    case RemoveKey(kid) =>
      assert FindKey(record.keys, kid).value in record.keys;
  }

  lemma {:induction false} EditKeysHold(draft: Draft, record: Record, edits: seq<KeyEdit>,
                                        local: LocalAuthorization, s: PublicKey, e: PublicKey, profiles: seq<string>)
    requires Holds(draft.document, local, s, e, profiles) && Owns(record, local)
    requires EditKeys(draft, record, edits).Ok?
    ensures Holds(EditKeys(draft, record, edits).value.document, local, s, e, profiles)
  {
    if edits != [] {
      var front := edits[..|edits| - 1];
      EditKeysHold(draft, record, front, local, s, e, profiles);
      EditKeyHolds(EditKeys(draft, record, front).value, record, edits[|edits| - 1], local, s, e, profiles);
    }
  }

  lemma AddDeviceHolds(draft: Draft, record: Record, edit: DeviceEdit,
                       local: LocalAuthorization, s: PublicKey, e: PublicKey, profiles: seq<string>)
    requires Holds(draft.document, local, s, e, profiles) && Owns(record, local)
    requires edit.AddDevice? && EditDevice(draft, record, edit).Ok?
    ensures Holds(EditDevice(draft, record, edit).value.document, local, s, e, profiles)
  {
    var devices, device := draft.document.Devices(), edit.device;
    var more := [Method(device.signing, edit.signingKey), Method(device.e2ee, edit.e2eeKey)];
    PublishesAppended(draft.document.methods, more, local.signing, s);
    PublishesAppended(draft.document.methods, more, local.e2ee, e);
    var at: nat :| ListedAt(devices, at, EntryOf(local, profiles));
    assert devices[at].id != device.id;
    assert ListedAt(devices + [device], at, EntryOf(local, profiles));
  }

  lemma RemovalHolds(draft: Draft, record: Record, id: string,
                     local: LocalAuthorization, s: PublicKey, e: PublicKey, profiles: seq<string>)
    requires Holds(draft.document, local, s, e, profiles) && Owns(record, local)
    requires EditDevice(draft, record, RemoveDevice(id)).Ok?
    ensures Holds(EditDevice(draft, record, RemoveDevice(id)).value.document, local, s, e, profiles)
  {
    var devices := draft.document.Devices();
    var gone := DevicePosition(devices, id);
    var at: nat :| ListedAt(devices, at, EntryOf(local, profiles));
    assert Apart(devices[gone], EntryOf(local, profiles));
    RestLists(devices, gone, at, EntryOf(local, profiles));
  }

  lemma RestLists(devices: seq<Device>, gone: nat, at: nat, entry: Device)
    requires ListedAt(devices, at, entry) && gone < |devices| && gone != at
    ensures Listed(devices[..gone] + devices[gone + 1..], entry)
  {
    var rest := devices[..gone] + devices[gone + 1..];
    assert forall i :: 0 <= i < |rest| ==> rest[i] == devices[if i < gone then i else i + 1];
    assert ListedAt(rest, if at < gone then at else at - 1, entry);
  }

  lemma AddProfilesHolds(draft: Draft, record: Record, edit: DeviceEdit,
                         local: LocalAuthorization, s: PublicKey, e: PublicKey, profiles: seq<string>)
    requires Holds(draft.document, local, s, e, profiles)
    requires edit.AddProfiles? && EditDevice(draft, record, edit).Ok?
    ensures Holds(EditDevice(draft, record, edit).value.document, local, s, e,
                  if edit.id == local.device then MergeProfiles(profiles, edit.profiles) else profiles)
  {
    var devices := draft.document.Devices();
    var after := EditDevice(draft, record, edit).value.document.Devices();
    var at: nat :| ListedAt(devices, at, EntryOf(local, profiles));
    PositionOf(devices, at, EntryOf(local, profiles));
    var merged := if edit.id == local.device then MergeProfiles(profiles, edit.profiles) else profiles;
    assert ListedAt(after, at, EntryOf(local, merged));
  }

  lemma EditDeviceHolds(draft: Draft, record: Record, edit: DeviceEdit,
                        local: LocalAuthorization, s: PublicKey, e: PublicKey, profiles: seq<string>)
    requires Holds(draft.document, local, s, e, profiles) && Owns(record, local)
    requires EditDevice(draft, record, edit).Ok?
    ensures Holds(EditDevice(draft, record, edit).value.document, local, s, e,
                  ProfilesAfter([edit], local.device, profiles))
  {
    assert [edit][..0] == [];
    var longer := edit.AddProfiles? && edit.id == local.device;
    var merged := if longer then MergeProfiles(profiles, edit.profiles) else profiles;
    assert ProfilesAfter([edit], local.device, profiles) == merged;
    match edit
    case AddDevice(_, _, _) => AddDeviceHolds(draft, record, edit, local, s, e, profiles);
    case AddProfiles(_, _) => AddProfilesHolds(draft, record, edit, local, s, e, profiles);
    case RemoveDevice(id) => RemovalHolds(draft, record, id, local, s, e, profiles);
  }

  lemma ProfilesAfterLast(edits: seq<DeviceEdit>, front: seq<DeviceEdit>, last: DeviceEdit, id: string,
                          profiles: seq<string>)
    requires edits == front + [last]
    ensures ProfilesAfter(edits, id, profiles) == ProfilesAfter([last], id, ProfilesAfter(front, id, profiles))
  {
    assert edits[..|edits| - 1] == front && [last][..0] == [];
  }

  lemma {:induction false} EditDevicesHold(draft: Draft, record: Record, edits: seq<DeviceEdit>, after: Draft,
                                           local: LocalAuthorization, s: PublicKey, e: PublicKey, profiles: seq<string>)
    requires Holds(draft.document, local, s, e, profiles) && Owns(record, local)
    requires EditDevices(draft, record, edits) == Ok(after)
    ensures Holds(after.document, local, s, e, ProfilesAfter(edits, local.device, profiles))
  {
    if edits != [] {
      var front, last := edits[..|edits| - 1], edits[|edits| - 1];
      var before, sofar := EditDevices(draft, record, front).value, ProfilesAfter(front, local.device, profiles);
      EditDevicesHold(draft, record, front, before, local, s, e, profiles);
      EditDeviceHolds(before, record, last, local, s, e, sofar);
      ProfilesAfterLast(edits, front, last, local.device, profiles);
      assert EditDevice(before, record, last) == Ok(after);
    }
  }

  // Back to the authorization check

  lemma {:induction false} FindKeyAt(keys: seq<KeyMetadata>, kid: Kid, i: nat)
    requires i < |keys| && keys[i].kid == kid && forall j :: 0 <= j < i ==> keys[j].kid != kid
    ensures FindKey(keys, kid) == Some(keys[i])
  {
    if i > 0 {
      assert keys[0].kid != kid && forall j :: 0 <= j < i - 1 ==> keys[1..][j] == keys[j + 1];
      FindKeyAt(keys[1..], kid, i - 1);
    }
  }

  lemma {:induction false} FirstKey(keys: seq<KeyMetadata>, kid: Kid) returns (i: nat)
    requires HasKey(keys, kid)
    ensures i < |keys| && keys[i].kid == kid && forall j :: 0 <= j < i ==> keys[j].kid != kid
  {
    i := 0;
    while keys[i].kid != kid
      invariant i < |keys| && forall j :: 0 <= j < i ==> keys[j].kid != kid
      decreases |keys| - i
    {
      i := i + 1;
    }
  }

  lemma FindKeyAfter(keys: seq<KeyMetadata>, later: seq<KeyMetadata>, more: seq<KeyMetadata>, kid: Kid)
    requires SameButState(keys, later) && HasKey(keys, kid)
    ensures FindKey(later + more, kid).Some?
    ensures FindKey(later + more, kid).value.publicKey == FindKey(keys, kid).value.publicKey
  {
    var i := FirstKey(keys, kid);
    FindKeyAt(keys, kid, i);
    assert forall j :: 0 <= j <= i ==> (later + more)[j].kid == keys[j].kid;
    FindKeyAt(later + more, kid, i);
  }

  lemma HoldsMatches(document: Document, keys: seq<KeyMetadata>, local: LocalAuthorization,
                     s: PublicKey, e: PublicKey, profiles: seq<string>)
    requires Holds(document, local, s, e, profiles)
    requires FindKey(keys, local.signing).Some? && FindKey(keys, local.signing).value.publicKey == s
    requires FindKey(keys, local.e2ee).Some? && FindKey(keys, local.e2ee).value.publicKey == e
    ensures LocalMatches(keys, document, local) <==> CompatibleProfiles(local.profiles, profiles)
  {
    var at: nat :| ListedAt(document.Devices(), at, EntryOf(local, profiles));
    PositionOf(document.Devices(), at, EntryOf(local, profiles));
    FindPublished(document.methods, local.signing, s);
    FindPublished(document.methods, local.e2ee, e);
  }

  lemma UniquePublishes(methods: seq<Method>, kid: Kid, publicKey: PublicKey)
    requires UniqueMethods(methods) && Method(kid, publicKey) in methods
    ensures Publishes(methods, kid, publicKey)
  {
    var i :| 0 <= i < |methods| && methods[i] == Method(kid, publicKey);
    forall m | m in methods && m.id == kid
      ensures m.publicKey == publicKey
    {
      var j :| 0 <= j < |methods| && methods[j] == m;
      assert i == j;
    }
  }

  lemma ApartLists(devices: seq<Device>, at: nat)
    requires DevicesApart(devices) && at < |devices|
    ensures ListedAt(devices, at, devices[at])
  {
    forall i | 0 <= i < |devices| && i != at
      ensures Apart(devices[i], devices[at])
    {
      if i > at {
        assert Apart(devices[at], devices[i]);
      }
    }
  }

  /** What a coherent record that is authorized holds on to. */
  lemma MatchesHolds(record: Record, local: LocalAuthorization)
    returns (s: PublicKey, e: PublicKey, profiles: seq<string>)
    requires Coherent(record.document, record.keys) && record.local == Some(local)
    requires LocalMatches(record.keys, record.document, local)
    ensures Holds(record.document, local, s, e, profiles) && Owns(record, local)
    ensures FindKey(record.keys, local.signing).value.publicKey == s
    ensures FindKey(record.keys, local.e2ee).value.publicKey == e
    ensures profiles == record.document.Devices()[DevicePosition(record.document.Devices(), local.device)].profiles
  {
    var document, at := record.document, DevicePosition(record.document.Devices(), local.device);
    s := FindKey(record.keys, local.signing).value.publicKey;
    e := FindKey(record.keys, local.e2ee).value.publicKey;
    var device := document.Devices()[at];
    profiles := device.profiles;
    assert device == EntryOf(local, profiles) && device in document.Devices() && Anchored(document, device);
    ApartLists(document.Devices(), at);
    UniquePublishes(document.methods, local.signing, s);
    UniquePublishes(document.methods, local.e2ee, e);
  }

  /**
   The local device after the commit: from a coherent document that authorizes it, an accepted batch
   leaves it authorized if and only if the profiles the batch gives it are compatible with the
   recorded ones. In particular it stays authorized when the batch does not extend its profiles,
   whatever ids the request reuses.
   */
  lemma LocalStaysAuthorizedIff(record: Record, spec: UpdateSpec, setting: Setting, added: seq<KeyMetadata>,
                                retired: seq<Kid>)
    requires Coherent(record.document, record.keys) && Build(record, spec, setting).Ok?
    requires record.local.Some? && LocalMatches(record.keys, record.document, record.local.value)
    ensures var local := record.local.value;
            var devices := record.document.Devices();
            var profiles := ProfilesAfter(spec.devices, local.device,
                                          devices[DevicePosition(devices, local.device)].profiles);
      LocalMatches(RetireAll(record.keys, retired) + added, Build(record, spec, setting).value.document, local)
      <==> CompatibleProfiles(local.profiles, profiles)
  {
    var local := record.local.value;
    var s, e, profiles := MatchesHolds(record, local);
    var candidate := Build(record, spec, setting).value.document;
    var after := ProfilesAfter(spec.devices, local.device, profiles);
    CandidateHolds(record, spec, setting, local, s, e, profiles);
    FindKeyAfter(record.keys, RetireAll(record.keys, retired), added, local.signing);
    FindKeyAfter(record.keys, RetireAll(record.keys, retired), added, local.e2ee);
    HoldsMatches(candidate, RetireAll(record.keys, retired) + added, local, s, e, after);
  }

  lemma CandidateHolds(record: Record, spec: UpdateSpec, setting: Setting,
                       local: LocalAuthorization, s: PublicKey, e: PublicKey, profiles: seq<string>)
    requires Build(record, spec, setting).Ok? && Holds(record.document, local, s, e, profiles) && Owns(record, local)
    ensures Holds(Build(record, spec, setting).value.document, local, s, e,
                  ProfilesAfter(spec.devices, local.device, profiles))
  {
    var bare := record.document.WithoutProof();
    var rotated, keyed, edited := Stages(record, spec, setting);
    if spec.rotation.Some? {
      RotateHolds(bare, record, spec.rotation.value, setting.publicKey, local, s, e, profiles);
    }
    EditKeysHold(Start(record, rotated), record, spec.keys, local, s, e, profiles);
    EditDevicesHold(keyed, record, spec.devices, edited, local, s, e, profiles);
  }
}
