/**
 The candidate document as the store builds it: a document edited in place by loops over the
 requested edits. Every method is proved against the functions of `Candidate`.
 */
module DocumentBuilder {
  import opened Model
  import opened Candidate

  class Builder {
    const record: Record
    var document: Document
    var added: seq<AddedKey>
    var retired: seq<Kid>
    var retiredDevices: set<string>

    function Contents(): Draft
      reads this
    {
      Draft(document, added, retired, retiredDevices)
    }

    constructor (record: Record)
      ensures this.record == record && Contents() == Start(record, record.document.WithoutProof())
    {
      this.record := record;
      document := record.document.WithoutProof();
      added, retired, retiredDevices := [], [], record.retiredDevices;
    }

    method ApplyRotation(rotation: Rotation, publicKey: PublicKey) returns (ok: bool)
      modifies this`document
      ensures ok <==> Rotate(old(document), record, rotation, publicKey).Ok?
      ensures ok ==> document == Rotate(old(document), record, rotation, publicKey).value
    {
      var found := FindKey(record.keys, rotation.oldKid);
      if || found.None? || found.value.origin != Managed || found.value.role != RequestSigning
         || found.value.state != KeyActive
      {
        return false;
      }
      if HasKey(record.keys, rotation.newKid) {
        return false;
      }
      document := document.(methods := document.methods + [Method(rotation.newKid, publicKey)]);
      document := document.(authentication := Without(document.authentication, rotation.oldKid));
      document := document.(authentication := document.authentication + [rotation.newKid]);
      ok := true;
    }

    /** Authentication keys are added and removed one after the other; the first refusal ends the batch. */
    method ApplyKeyEdits(edits: seq<KeyEdit>) returns (ok: bool)
      modifies this
      ensures ok <==> EditKeys(old(Contents()), record, edits).Ok?
      ensures ok ==> Contents() == EditKeys(old(Contents()), record, edits).value
    {
      ghost var start := Contents();
      var i := 0;
      while i < |edits|
        invariant 0 <= i <= |edits|
        invariant EditKeys(start, record, edits[..i]) == Ok(Contents())
      {
        assert edits[..i + 1][..i] == edits[..i];
        var edit := edits[i];
        match edit {
          case AddKey(kid, publicKey) =>
            if HasKey(record.keys, kid) || HasMethod(document.methods, kid) || !publicKey.Ed25519? {
              RefusedKeys(start, edits, i);
              return false;
            }
            document := document.(methods := document.methods + [Method(kid, publicKey)]);
            document := document.(authentication := document.authentication + [kid]);
            added := added + [AddedKey(kid, RequestSigning)];
          case RemoveKey(kid) =>
            var found := FindKey(record.keys, kid);
            if found.None? || found.value.role != RequestSigning || found.value.origin != External {
              RefusedKeys(start, edits, i);
              return false;
            }
            document := document.(methods := WithoutMethods(document.methods, {kid}));
            document := document.(authentication := Without(document.authentication, kid));
            retired := retired + [kid];
        }
        i := i + 1;
      }
      assert edits[..|edits|] == edits;
      ok := true;
    }

    /** A refused edit refuses the batch. */
    lemma {:induction false} RefusedKeys(start: Draft, edits: seq<KeyEdit>, i: nat)
      requires i < |edits| && EditKeys(start, record, edits[..i + 1]).Refused?
      ensures EditKeys(start, record, edits).Refused?
      decreases |edits|
    {
      if i + 1 < |edits| {
        var front := edits[..|edits| - 1];
        assert front[..i + 1] == edits[..i + 1];
        RefusedKeys(start, front, i);
      } else {
        assert edits[..i + 1] == edits;
      }
    }

    lemma {:induction false} RefusedDevices(start: Draft, edits: seq<DeviceEdit>, i: nat)
      requires i < |edits| && EditDevices(start, record, edits[..i + 1]).Refused?
      ensures EditDevices(start, record, edits).Refused?
      decreases |edits|
    {
      if i + 1 < |edits| {
        var front := edits[..|edits| - 1];
        assert front[..i + 1] == edits[..i + 1];
        RefusedDevices(start, front, i);
      } else {
        assert edits[..i + 1] == edits;
      }
    }

    method AddProfiles(id: string, profiles: seq<string>) returns (ok: bool)
      modifies this`document
      ensures ok <==> EditDevice(old(Contents()), record, DeviceEdit.AddProfiles(id, profiles)).Ok?
      ensures ok ==> Contents() == EditDevice(old(Contents()), record, DeviceEdit.AddProfiles(id, profiles)).value
      ensures !ok ==> document == old(document)
    {
      var devices := document.Devices();
      var at := DevicePosition(devices, id);
      if !ValidProfiles(profiles) || at == |devices| {
        return false;
      }
      var merged := devices[at].profiles;
      var i := 0;
      while i < |profiles|
        invariant 0 <= i <= |profiles|
        invariant merged == MergeProfiles(devices[at].profiles, profiles[..i])
      {
        assert profiles[..i + 1][..i] == profiles[..i];
        if profiles[i] !in merged {
          merged := merged + [profiles[i]];
        }
        i := i + 1;
      }
      assert profiles[..|profiles|] == profiles;
      document := document.(manifest := Some(devices[at := devices[at].(profiles := merged)]));
      ok := true;
    }

    method AddDevice(device: Device, signingKey: PublicKey, e2eeKey: PublicKey) returns (ok: bool)
      modifies this
      ensures ok <==> EditDevice(old(Contents()), record, DeviceEdit.AddDevice(device, signingKey, e2eeKey)).Ok?
      ensures ok ==>
        Contents() == EditDevice(old(Contents()), record, DeviceEdit.AddDevice(device, signingKey, e2eeKey)).value
      ensures !ok ==> Contents() == old(Contents())
    {
      var devices := document.Devices();
      if !ValidDevice(device) || device.id in retiredDevices || device.signing == device.e2ee
         || HasKey(record.keys, device.signing) || HasKey(record.keys, device.e2ee)
         || HasMethod(document.methods, device.signing) || HasMethod(document.methods, device.e2ee)
         || DevicePosition(devices, device.id) < |devices| || !signingKey.Ed25519? || !e2eeKey.X25519?
      {
        return false;
      }
      document := document.(
        methods := document.methods + [Method(device.signing, signingKey), Method(device.e2ee, e2eeKey)]);
      document := document.(authentication := document.authentication + [device.signing]);
      document := document.(assertion := document.assertion + [device.signing]);
      document := document.(agreement := document.agreement + [device.e2ee]);
      document := document.(manifest := Some(devices + [device]));
      added := added + [AddedKey(device.signing, DeviceSigning), AddedKey(device.e2ee, E2eeAgreement)];
      ok := true;
    }

    method RemoveDevice(id: string) returns (ok: bool)
      modifies this
      ensures ok <==> EditDevice(old(Contents()), record, DeviceEdit.RemoveDevice(id)).Ok?
      ensures ok ==> Contents() == EditDevice(old(Contents()), record, DeviceEdit.RemoveDevice(id)).value
      ensures !ok ==> Contents() == old(Contents())
    {
      var devices := document.Devices();
      var at := DevicePosition(devices, id);
      if Blank(id) || !Trimmed(id) || (record.local.Some? && record.local.value.device == id) || at == |devices| {
        return false;
      }
      var removed := devices[at];
      document := document.(manifest := Some(devices[..at] + devices[at + 1..]));
      retiredDevices := retiredDevices + {removed.id};
      document := document.(methods := WithoutMethods(document.methods, {removed.signing, removed.e2ee}));
      document := document.(authentication := Without(document.authentication, removed.signing));
      document := document.(assertion := Without(document.assertion, removed.signing));
      document := document.(agreement := Without(document.agreement, removed.e2ee));
      retired := retired + [removed.signing, removed.e2ee];
      ok := true;
    }

    /** Device edits, one after the other; the first refusal ends the batch. */
    method ApplyDeviceEdits(edits: seq<DeviceEdit>) returns (ok: bool)
      modifies this
      ensures ok <==> EditDevices(old(Contents()), record, edits).Ok?
      ensures ok ==> Contents() == EditDevices(old(Contents()), record, edits).value
    {
      ghost var start := Contents();
      var i := 0;
      while i < |edits|
        invariant 0 <= i <= |edits|
        invariant EditDevices(start, record, edits[..i]) == Ok(Contents())
      {
        assert edits[..i + 1][..i] == edits[..i];
        match edits[i] {
          case AddProfiles(id, profiles) => ok := AddProfiles(id, profiles);
          case AddDevice(device, signingKey, e2eeKey) => ok := AddDevice(device, signingKey, e2eeKey);
          case RemoveDevice(id) => ok := RemoveDevice(id);
        }
        if !ok {
          RefusedDevices(start, edits, i);
          return;
        }
        i := i + 1;
      }
      assert edits[..|edits|] == edits;
      ok := true;
    }
  }

  /** The whole of building a candidate. */
  method BuildCandidate(record: Record, spec: UpdateSpec, setting: Setting) returns (r: Result<Draft>)
    ensures r == Build(record, spec, setting)
  {
    var domain := if record.document.proof.Some? then record.document.proof.value.domain else None;
    var builder := new Builder(record);
    var ok := true;
    if spec.rotation.Some? {
      ok := builder.ApplyRotation(spec.rotation.value, setting.publicKey);
    }
    if ok {
      ok := builder.ApplyKeyEdits(spec.keys);
    }
    if ok {
      ok := builder.ApplyDeviceEdits(spec.devices);
    }
    if !ok {
      return Refused;
    }
    var signed := Sign(Finish(builder.document, spec), record, domain, setting);
    if signed.Refused? || !setting.valid {
      return Refused;
    }
    builder.document := signed.value;
    r := Ok(builder.Contents());
  }

  /** Retiring the keys of a committed revision, one key id after the other. */
  method RetireKeys(keys: seq<KeyMetadata>, kids: seq<Kid>) returns (r: seq<KeyMetadata>)
    ensures r == RetireAll(keys, kids)
  {
    r := keys;
    var i := 0;
    while i < |kids|
      invariant 0 <= i <= |kids|
      invariant r == RetireAll(keys, kids[..i])
    {
      assert kids[..i + 1][..i] == kids[..i];
      r := Retire(r, kids[i]);
      i := i + 1;
    }
    assert kids[..|kids|] == kids;
  }

  // From a request to an update specification

  datatype DocumentChange =
    | RotateSigningKey(rotation: Rotation)
    | ChangeKey(keyEdit: KeyEdit)
    | ChangeDevice(deviceEdit: DeviceEdit)
    | ReplaceServices(services: seq<Service>)

  function CountRotations(changes: seq<DocumentChange>): nat {
    if changes == [] then 0
    else CountRotations(changes[..|changes| - 1]) + if changes[|changes| - 1].RotateSigningKey? then 1 else 0
  }

  function CountServices(changes: seq<DocumentChange>): nat {
    if changes == [] then 0
    else CountServices(changes[..|changes| - 1]) + if changes[|changes| - 1].ReplaceServices? then 1 else 0
  }

  /** The key edits of a request, in its order. */
  function KeyEdits(changes: seq<DocumentChange>): seq<KeyEdit> {
    if changes == [] then []
    else
      var last := changes[|changes| - 1];
      KeyEdits(changes[..|changes| - 1]) + if last.ChangeKey? then [last.keyEdit] else []
  }

  /** The device edits of a request, in its order. */
  function DeviceEdits(changes: seq<DocumentChange>): seq<DeviceEdit> {
    if changes == [] then []
    else
      var last := changes[|changes| - 1];
      DeviceEdits(changes[..|changes| - 1]) + if last.ChangeDevice? then [last.deviceEdit] else []
  }

  lemma {:induction false} CountsGrow(changes: seq<DocumentChange>, i: nat)
    requires i <= |changes|
    ensures CountRotations(changes[..i]) <= CountRotations(changes)
    ensures CountServices(changes[..i]) <= CountServices(changes)
    decreases |changes|
  {
    if i < |changes| {
      assert changes[..|changes| - 1][..i] == changes[..i];
      CountsGrow(changes[..|changes| - 1], i);
    } else {
      assert changes[..i] == changes;
    }
  }

  /**
   A request becomes an update specification if and only if it is not empty and rotates the signing key
   and replaces the services at most once each. Its edits are kept, in their order.
   */
  method IntoUpdateSpec(changes: seq<DocumentChange>) returns (r: Result<UpdateSpec>)
    ensures r.Ok? <==> changes != [] && CountRotations(changes) <= 1 && CountServices(changes) <= 1
    ensures r.Ok? ==> r.value.keys == KeyEdits(changes) && r.value.devices == DeviceEdits(changes)
    ensures r.Ok? ==> (r.value.rotation.Some? <==> CountRotations(changes) == 1)
    ensures r.Ok? && r.value.rotation.Some? ==> RotateSigningKey(r.value.rotation.value) in changes
    ensures r.Ok? ==> (r.value.services.Some? <==> CountServices(changes) == 1)
    ensures r.Ok? && r.value.services.Some? ==> ReplaceServices(r.value.services.value) in changes
  {
    if changes == [] {
      return Refused;
    }
    var rotation: Option<Rotation> := None;
    var services: Option<seq<Service>> := None;
    var keys, devices := [], [];
    var i := 0;
    while i < |changes|
      invariant 0 <= i <= |changes|
      invariant keys == KeyEdits(changes[..i]) && devices == DeviceEdits(changes[..i])
      invariant CountRotations(changes[..i]) == (if rotation.Some? then 1 else 0)
      invariant CountServices(changes[..i]) == (if services.Some? then 1 else 0)
      invariant rotation.Some? ==> RotateSigningKey(rotation.value) in changes
      invariant services.Some? ==> ReplaceServices(services.value) in changes
    {
      assert changes[..i + 1][..i] == changes[..i];
      CountsGrow(changes, i + 1);
      match changes[i] {
        case RotateSigningKey(next) =>
          if rotation.Some? {
            return Refused;
          }
          rotation := Some(next);
        case ChangeKey(edit) => keys := keys + [edit];
        case ChangeDevice(edit) => devices := devices + [edit];
        case ReplaceServices(next) =>
          if services.Some? {
            return Refused;
          }
          services := Some(next);
      }
      i := i + 1;
    }
    assert changes[..|changes|] == changes;
    r := Ok(UpdateSpec(rotation, keys, devices, services));
  }
}
