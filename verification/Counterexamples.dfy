/**
 Where a guarantee stops: runs of a new store in which the code does not give what a reader might
 expect, next to the exact condition under which it does.
 */
module Counterexamples {
  import opened Model
  import opened CrashAtomicity
  import opened Candidate
  import opened Adoption
  import opened CandidateConsistency
  import opened Engine
  import opened Births
  import opened Runs
  import opened StoreSafety
  import opened Progress
  import opened Soundness
  import opened DeviceMemory

  // Starting from a new store

  lemma ReachableStep(s: Store, e: Event)
    requires Reachable(s)
    ensures Reachable(Step(s, e))
  {
    var events: seq<Event> :| s == Run(Empty(), events);
    assert (events + [e])[..|events + [e]| - 1] == events;
    assert Run(Empty(), events + [e]) == Step(s, e);
  }

  lemma NewStore() returns (s: Store)
    ensures Reachable(s) && s.disk == Empty().disk && s.used == {} && 0 in s.managers && s.managers[0] == 0
  {
    assert Run(Empty(), []) == Empty();
    ReachableStep(Empty(), OpenStore(0));
    s := Step(Empty(), OpenStore(0));
  }

  lemma BringUses(s: Store, birth: Birth)
    requires CanBring(s, 0, 0, birth)
    ensures Step(s, Bring(0, 0, 0, birth, 0, Completes)).used == s.used + {0}
  {
  }

  /** A new store holds one identity after it is opened and the identity is brought in. */
  lemma FirstIdentity(birth: Birth) returns (s: Store)
    requires Born(0, birth).Some?
    ensures Reachable(s) && Holds(s, 0, Born(0, birth).value) && s.used == {0}
  {
    var none := KeyMetadata("", RootControl, External, KeyActive, false, 1, Ed25519(""));
    var e := Bring(0, 0, 0, birth, 0, Completes);
    s := NewStore();
    CreationGoesThrough(s, 0, 0, 0, birth, 0, none);
    BringUses(s, birth);
    ReachableStep(s, e);
    s := Step(s, e);
  }

  /** Through an up-to-date handle of such an identity, an acceptable request is prepared. */
  lemma Prepares(s: Store, r: Record, spec: UpdateSpec, setting: Setting) returns (q: Record)
    requires Reachable(s) && Holds(s, 0, r) && r.state == Active && r.pending.None? && s.used == {0}
    requires !EmptySpec(spec) && Acceptable(r, spec, setting)
    ensures Holds(Step(s, Ask(0, Propose(1, spec, setting), Completes)), 0, q)
    ensures q.pending.Some? && q.pending.value.candidate == Build(r, spec, setting).value.document
    ensures var draft := Build(r, spec, setting).value;
      q.pending.value.newKeys == NewKeys(draft.document, draft, spec).value
    ensures RetireAll(q.keys, q.pending.value.retiredKids) + q.pending.value.newKeys == KeysAfter(r, spec, setting)
  {
    q := Proposed(r, 1, spec, setting).value;
    ReachableInv(s);
    ProposeHolds(s, 0, r, 1, spec, setting, q);
    ProposedKeys(r, spec, setting, q);
  }

  lemma ProposedKeys(r: Record, spec: UpdateSpec, setting: Setting, q: Record)
    requires Acceptable(r, spec, setting) && Proposed(r, 1, spec, setting) == Some(q)
    ensures q.pending.Some? && q.pending.value.candidate == Build(r, spec, setting).value.document
    ensures var draft := Build(r, spec, setting).value;
      q.pending.value.newKeys == NewKeys(draft.document, draft, spec).value
    ensures RetireAll(q.keys, q.pending.value.retiredKids) + q.pending.value.newKeys == KeysAfter(r, spec, setting)
  {
  }

  lemma FirstRevision(birth: Birth, r: Record, spec: UpdateSpec, setting: Setting)
    returns (s: Store, e: Event, q: Record)
    requires Born(0, birth) == Some(r) && r.state == Active && r.pending.None?
    requires !EmptySpec(spec) && Acceptable(r, spec, setting)
    ensures Reachable(s) && Holds(s, 0, r) && e == Ask(0, Propose(1, spec, setting), Completes)
    ensures Holds(Step(s, e), 0, q)
    ensures q.pending.Some?
    ensures RetireAll(q.keys, q.pending.value.retiredKids) + q.pending.value.newKeys == KeysAfter(r, spec, setting)
  {
    s := FirstIdentity(birth);
    e := Ask(0, Propose(1, spec, setting), Completes);
    q := Prepares(s, r, spec, setting);
  }

  // Devices a promotion revives or forgets

  const E1: Did := Wba("example")
  const LAPTOP: Device := Device("laptop", "s", "e", ["p"])
  const PHONE: Device := Device("phone", "a", "b", ["p"])
  const ROOT: Method := Method("root", Ed25519("root"))
  const OURS: seq<Method> := [ROOT, Method("s", Ed25519("signing")), Method("e", X25519("agreement"))]
  const PROOF: Option<Proof> := Some(Proof("root", None, 0))

  /** The remote document before the laptop is enrolled, with the laptop and the phone, and with the laptop alone. */
  const BEFORE: Document := Document(E1, [ROOT], [], [], [], None, [], PROOF)
  const WITH: Document :=
    Document(E1, OURS + [Method("a", Ed25519("x")), Method("b", X25519("y"))], ["s", "a"], ["s", "a"], ["e", "b"],
             Some([LAPTOP, PHONE]), [], PROOF)
  const WITHOUT: Document := Document(E1, OURS, ["s"], ["s"], ["e"], Some([LAPTOP]), [], PROOF)

  const LOCAL: LocalAuthorization := LocalAuthorization("laptop", "s", "e", ["p"])

  function RootKeyIn(origin: KeyOrigin, state: KeyState): KeyMetadata {
    KeyMetadata("root", RootControl, origin, state, false, 1, Ed25519("root"))
  }

  /** The keys of the laptop behind the root key. */
  function Keys(root: KeyMetadata, state: KeyState): seq<KeyMetadata> {
    [root,
     KeyMetadata("s", DeviceSigning, Managed, state, false, 1, Ed25519("signing")),
     KeyMetadata("e", E2eeAgreement, Managed, state, false, 1, X25519("agreement"))]
  }

  function Version(document: Document, version: nat): Evidence {
    Evidence(version, version, Digest(document))
  }

  const ENROLLMENT: Birth :=
    DeviceEnrollment(BEFORE, Version(BEFORE, 1), true, 0, LOCAL, Ed25519("signing"), X25519("agreement"))

  function Applicant(): Record {
    Record(0, E1, Enrolling, 1, 1, BEFORE, Keys(RootKeyIn(External, KeyActive), KeyPending), RootAbsent,
           RootKey(Ed25519("root")), Checkpoint(1, 1, Digest(BEFORE)), false,
           Some(LOCAL), None, Some(0), None, None, [], {}, None)
  }

  /** The enrolled identity with a document of the given version. */
  function Enrolled(document: Document, version: nat, retired: set<string>): Record {
    Applicant().(
      state := Active, keys := Keys(RootKeyIn(External, KeyActive), KeyActive), enrollment := None,
      document := document, checkpoint := Checkpoint(version, version, Digest(document)), revision := version,
      generation := version, retiredDevices := retired)
  }

  lemma Names()
    ensures "root" != "s" && "root" != "e" && "s" != "e" && "laptop" != "phone"
    ensures "a" != "s" && "a" != "e" && "b" != "s" && "b" != "e" && "a" != "root" && "b" != "root"
  {
    assert "root"[0] == 'r' && "s"[0] == 's' && "e"[0] == 'e' && "a"[0] == 'a' && "b"[0] == 'b';
    assert "laptop"[0] == 'l' && "phone"[0] == 'p';
  }

  lemma NotBlank(s: string)
    requires s != [] && !IsSpace(s[0])
    ensures !Blank(s)
  {
  }

  lemma Enrolls()
    ensures Born(0, ENROLLMENT) == Some(Applicant())
  {
    Names();
    NotBlank("laptop");
    NotBlank("p");
    assert BEFORE.methods[0].id == "root" && FindMethod(BEFORE.methods, "root") == Some(ROOT);
    var keys := Keys(RootKeyIn(External, KeyActive), KeyPending);
    assert [keys[0]] + [keys[1], keys[2]] == keys;
  }

  lemma FirstThreeFound(methods: seq<Method>, a: Method, b: Method, c: Method)
    requires |methods| >= 3 && methods[0] == a && methods[1] == b && methods[2] == c
    requires a.id != b.id && a.id != c.id && b.id != c.id
    ensures FindMethod(methods, a.id) == Some(a) && FindMethod(methods, b.id) == Some(b)
    ensures FindMethod(methods, c.id) == Some(c)
  {
    var rest := methods[1..];
    assert rest[0] == b && rest[1..][0] == c;
    assert FindMethod(rest, c.id) == FindMethod(rest[1..], c.id);
  }

  lemma KeysFound(keys: seq<KeyMetadata>, root: KeyMetadata, state: KeyState)
    requires keys == Keys(root, state) && root.kid == "root"
    ensures FindKey(keys, "root") == Some(keys[0])
    ensures FindKey(keys, "s") == Some(keys[1]) && FindKey(keys, "e") == Some(keys[2])
  {
    Names();
    assert keys[1..][0] == keys[1] && keys[1..][1..][0] == keys[2];
  }

  lemma LaptopListed(document: Document)
    requires document == WITH || document == WITHOUT
    ensures SoleDevice(document.Devices(), "laptop") && DevicePosition(document.Devices(), "laptop") == 0
  {
    Names();
    var rest := document.Devices()[1..];
    assert document == WITH ==> rest == [PHONE] && DevicePosition([PHONE], "laptop") == 1;
    assert document == WITHOUT ==> rest == [];
  }

  predicate SameProfiles(document: Document) {
    var devices := document.Devices();
    var at := DevicePosition(devices, LOCAL.device);
    at < |devices| && devices[at].profiles == LOCAL.profiles
  }

  lemma SameRoot(document: Document)
    requires document == WITH || document == WITHOUT
    ensures RootFingerprint(document) == MethodFingerprint(document) == RootKey(Ed25519("root"))
  {
    assert document.methods[0] == ROOT;
  }

  lemma Authorized(keys: seq<KeyMetadata>, root: KeyMetadata, state: KeyState, document: Document)
    requires document == WITH || document == WITHOUT
    requires keys == Keys(root, state) && root.kid == "root"
    ensures LocalMatches(keys, document, LOCAL) && SameProfiles(document)
  {
    Names();
    FirstThreeFound(document.methods, OURS[0], OURS[1], OURS[2]);
    KeysFound(keys, root, state);
    LaptopListed(document);
  }

  lemma PhoneIds()
    ensures DeviceIds(WITH) == {"laptop", "phone"} && DeviceIds(WITHOUT) == {"laptop"} && DeviceIds(BEFORE) == {}
  {
    assert WITH.Devices()[0] == LAPTOP && WITH.Devices()[1] == PHONE && WITHOUT.Devices()[0] == LAPTOP;
    assert LAPTOP in WITH.Devices() && PHONE in WITH.Devices() && LAPTOP in WITHOUT.Devices();
  }

  lemma DevicesSeen(r: Record, document: Document, devices: set<string>)
    requires r.retiredDevices * DeviceIds(document) == {}
    requires devices == r.retiredDevices + (DeviceIds(r.document) - DeviceIds(document))
    ensures Observed(r, document) == Some(devices)
  {
  }

  /** The record with a newer document adopted. */
  function Following(r: Record, document: Document, version: nat, devices: set<string>): Record {
    r.(retiredDevices := devices, document := document, checkpoint := CheckpointOf(Version(document, version)),
       initialPending := false, revision := version, generation := r.generation + 1)
  }

  lemma RefreshIdle(r: Record, document: Document)
    requires r.local == Some(LOCAL) && SameProfiles(document)
    ensures RefreshProfiles(r, document) == r
  {
  }

  /** What adopting a newer document comes to, once the record is judged and its devices are observed. */
  lemma Adopts(r: Record, document: Document, version: nat, open: bool, judged: Record, devices: set<string>)
    requires r.pending.None? && r.checkpoint.document < version && r.checkpoint.registry < version
    requires MethodFingerprint(document) == r.fingerprint
    requires Judged(r, document) == Some(judged) && Observed(r, document) == Some(devices)
    requires RefreshProfiles(judged, document) == judged && judged.generation == r.generation
    ensures Adopt(r, document, Version(document, version), false, open)
      == Adopted(Following(judged, document, version, devices))
  {
  }

  lemma JudgedApplicant(r: Record, document: Document, judged: Record)
    requires r.local == Some(LOCAL) && LocalMatches(r.keys, document, LOCAL)
    requires r.state == Enrolling && r.enrollment.Some? && judged.keys == ActivateKeys(r.keys)
    requires judged == r.(keys := judged.keys, enrollment := None, requestEnrollment := None, state := Active)
    ensures Judged(r, document) == Some(judged)
  {
  }

  lemma JudgedActive(r: Record, document: Document)
    requires r.local == Some(LOCAL) && LocalMatches(r.keys, document, LOCAL) && r.state == Active
    ensures Judged(r, document) == Some(r)
  {
  }

  /** The laptop's enrollment once it is confirmed. */
  function Admitted(): Record {
    Applicant().(state := Active, keys := Keys(RootKeyIn(External, KeyActive), KeyActive), enrollment := None)
  }

  lemma Activated(root: KeyMetadata)
    requires root.state == KeyActive
    ensures ActivateKeys(Keys(root, KeyPending)) == Keys(root, KeyActive)
  {
  }

  lemma Admits(r: Record, judged: Record)
    requires r == Applicant() && judged == Admitted()
    ensures Judged(r, WITH) == Some(judged)
  {
    Authorized(r.keys, RootKeyIn(External, KeyActive), KeyPending, WITH);
    Activated(RootKeyIn(External, KeyActive));
    JudgedApplicant(r, WITH, judged);
  }

  /** The enrollment is confirmed by a document that lists the phone as well. */
  lemma Confirms(open: bool)
    ensures Adopt(Applicant(), WITH, Version(WITH, 2), false, open) == Adopted(Enrolled(WITH, 2, {}))
  {
    Admits(Applicant(), Admitted());
    Authorized(Admitted().keys, RootKeyIn(External, KeyActive), KeyActive, WITH);
    RefreshIdle(Admitted(), WITH);
    SameRoot(WITH);
    PhoneIds();
    DevicesSeen(Applicant(), WITH, {});
    Adopts(Applicant(), WITH, 2, open, Admitted(), {});
  }

  lemma StillAuthorized(r: Record, root: KeyMetadata, document: Document)
    requires r.keys == Keys(root, KeyActive) && root.kid == "root" && r.local == Some(LOCAL) && r.state == Active
    requires document == WITH || document == WITHOUT
    ensures Judged(r, document) == Some(r) && RefreshProfiles(r, document) == r
  {
    Authorized(r.keys, root, KeyActive, document);
    JudgedActive(r, document);
    RefreshIdle(r, document);
  }

  /** The next document drops the phone. */
  lemma Drops(open: bool)
    ensures Adopt(Enrolled(WITH, 2, {}), WITHOUT, Version(WITHOUT, 3), false, open)
      == Adopted(Enrolled(WITHOUT, 3, {"phone"}))
  {
    var r := Enrolled(WITH, 2, {});
    StillAuthorized(r, RootKeyIn(External, KeyActive), WITHOUT);
    SameRoot(WITHOUT);
    PhoneIds();
    Names();
    DevicesSeen(r, WITHOUT, {"phone"});
    Adopts(r, WITHOUT, 3, open, r, {"phone"});
  }

  /** The enrolled identity of a new store, with the phone listed. */
  lemma Listing() returns (s: Store)
    ensures Reachable(s) && Holds(s, 0, Enrolled(WITH, 2, {}))
  {
    Enrolls();
    s := FirstIdentity(ENROLLMENT);
    ReachableInv(s);
    Confirms(TransitionOpen(s.disk, 0));
    AdoptHolds(s, 0, Applicant(), WITH, Version(WITH, 2), true, Enrolled(WITH, 2, {}));
    ReachableStep(s, Ask(0, AdoptDocument(WITH, Version(WITH, 2), true, false, 0), Completes));
    s := Step(s, Ask(0, AdoptDocument(WITH, Version(WITH, 2), true, false, 0), Completes));
  }

  /** And with the phone dropped again. */
  lemma Dropping() returns (s: Store)
    ensures Reachable(s) && Holds(s, 0, Enrolled(WITHOUT, 3, {"phone"}))
  {
    s := Listing();
    ReachableInv(s);
    Drops(TransitionOpen(s.disk, 0));
    AdoptHolds(s, 0, Enrolled(WITH, 2, {}), WITHOUT, Version(WITHOUT, 3), true, Enrolled(WITHOUT, 3, {"phone"}));
    ReachableStep(s, Ask(0, AdoptDocument(WITHOUT, Version(WITHOUT, 3), true, false, 0), Completes));
    s := Step(s, Ask(0, AdoptDocument(WITHOUT, Version(WITHOUT, 3), true, false, 0), Completes));
  }

  /** The root key wrapped for the laptop, at the checkpoint of the given version. */
  function Envelope(document: Document, version: nat): RootEnvelope {
    RootEnvelope("root", "laptop", "e", Checkpoint(version, version, Digest(document)), "nonce", "transfer")
  }

  /** The enrolled identity waiting for the confirmation of its root. */
  function Waiting(document: Document, version: nat, retired: set<string>): Record {
    Enrolled(document, version, retired).(
      keys := Keys(RootKeyIn(Managed, KeyPending), KeyActive), root := RootPending,
      rootTransfer := Some("transfer"), replays := [Replay("nonce", "transfer")], generation := version + 1)
  }

  lemma ImportIs(document: Document, version: nat, retired: set<string>)
    ensures CanImport(Enrolled(document, version, retired), Envelope(document, version))
    ensures RootPosition(Enrolled(document, version, retired).keys, "root") == 0
    ensures WithImport(Enrolled(document, version, retired), Envelope(document, version))
      == Waiting(document, version, retired)
  {
    var r := Enrolled(document, version, retired);
    KeysFound(r.keys, RootKeyIn(External, KeyActive), KeyActive);
    assert r.keys[0 := RootKeyIn(Managed, KeyPending)] == Keys(RootKeyIn(Managed, KeyPending), KeyActive);
  }

  lemma Imports(s: Store, document: Document, version: nat, retired: set<string>) returns (t: Store)
    requires Reachable(s) && Holds(s, 0, Enrolled(document, version, retired))
    ensures Reachable(t) && Holds(t, 0, Waiting(document, version, retired))
  {
    var envelope := Envelope(document, version);
    ReachableInv(s);
    ImportIs(document, version, retired);
    ImportHolds(s, 0, Enrolled(document, version, retired), envelope);
    ReachableStep(s, Ask(0, ImportRootKey(envelope, true, true, 0), Completes));
    t := Step(s, Ask(0, ImportRootKey(envelope, true, true, 0), Completes));
  }

  /** The promoted identity. */
  function Controlling(document: Document, version: nat, retired: set<string>): Record {
    Enrolled(document, version, retired).(
      keys := Keys(RootKeyIn(Managed, KeyActive), KeyActive), root := RootActive,
      replays := [Replay("nonce", "transfer")], generation := version + 1)
  }

  lemma Promotes(document: Document, version: nat, retired: set<string>, next: Document)
    requires version > 0 && (next == WITH || next == WITHOUT)
    ensures Promoted(Waiting(document, version, retired), next, Version(next, version + 1), 0)
      == Make(Transit(0, Controlling(next, version + 1, retired)))
    ensures RootFingerprint(next) == RootKey(Ed25519("root"))
  {
    var r := Waiting(document, version, retired);
    SameRoot(next);
    assert ManagedRoot(r.keys) == 0;
    assert r.keys[0 := RootKeyIn(Managed, KeyActive)] == Keys(RootKeyIn(Managed, KeyActive), KeyActive);
  }

  lemma ConfirmsRoot(s: Store, document: Document, version: nat, retired: set<string>, next: Document)
    requires Inv(s) && Holds(s, 0, Waiting(document, version, retired)) && version > 0
    requires next == WITH || next == WITHOUT
    ensures var t := Step(s, Ask(0, ConfirmRoot(next, Version(next, version + 1), true, 0), Completes));
      Inv(t) && Holds(t, 0, Controlling(next, version + 1, retired))
  {
    Promotes(document, version, retired, next);
    ConfirmRootHolds(s, 0, Waiting(document, version, retired), next, Version(next, version + 1), true,
                     Controlling(next, version + 1, retired));
  }

  lemma Revived(r: Record, q: Record)
    requires r == Waiting(WITHOUT, 3, {"phone"}) && q == Controlling(WITH, 4, {"phone"})
    ensures Revives(r, ConfirmRoot(WITH, Version(WITH, 4), true, 0))
    ensures RetiredApart(r) && !RetiredApart(q)
  {
    PhoneIds();
    Names();
    assert "phone" in r.retiredDevices * DeviceIds(WITH);
    assert "phone" in q.retiredDevices && "phone" in DeviceIds(q.document);
  }

  /**
   A promotion can revive a device. In a new store: a laptop is enrolled, a document that lists it and a
   phone is adopted, then one without the phone, the root key wrapped for the laptop is imported, and
   the promotion is confirmed with a document that lists the phone again.
   */
  lemma PromotionCanReviveADevice() returns (s: Store, e: Event, r: Record, q: Record)
    ensures Reachable(s) && Holds(s, 0, r) && Holds(Step(s, e), 0, q) && q.id == r.id
    ensures e.Ask? && Revives(r, e.request)
    ensures RetiredApart(r) && !RetiredApart(q)
  {
    s := Dropping();
    s := Imports(s, WITHOUT, 3, {"phone"});
    e := Ask(0, ConfirmRoot(WITH, Version(WITH, 4), true, 0), Completes);
    r, q := Waiting(WITHOUT, 3, {"phone"}), Controlling(WITH, 4, {"phone"});
    ReachableInv(s);
    ConfirmsRoot(s, WITHOUT, 3, {"phone"}, WITH);
    Revived(r, q);
  }

  /** After the promotion, the document that lists the phone is adopted again. */
  lemma Relists(open: bool)
    ensures Adopt(Controlling(WITHOUT, 3, {}), WITH, Version(WITH, 4), false, open) == Adopted(Controlling(WITH, 4, {}))
  {
    var r := Controlling(WITHOUT, 3, {});
    StillAuthorized(r, RootKeyIn(Managed, KeyActive), WITH);
    SameRoot(WITH);
    PhoneIds();
    DevicesSeen(r, WITH, {});
    Adopts(r, WITH, 4, open, r, {});
  }

  lemma Forgotten(r: Record, q: Record, p: Record)
    requires r == Waiting(WITH, 2, {}) && q == Controlling(WITHOUT, 3, {}) && p == Controlling(WITH, 4, {})
    ensures Forgets(r, ConfirmRoot(WITHOUT, Version(WITHOUT, 3), true, 0))
    ensures !Revives(r, ConfirmRoot(WITHOUT, Version(WITHOUT, 3), true, 0))
    ensures "phone" in DeviceIds(r.document) && !Accounted(r, q) && "phone" in DeviceIds(p.document)
  {
    PhoneIds();
    Names();
    assert "phone" in DeviceIds(r.document) && "phone" !in {} + DeviceIds(WITHOUT);
    assert r.retiredDevices * DeviceIds(WITHOUT) == {};
  }

  lemma RelistHolds(s: Store)
    requires Inv(s) && Holds(s, 0, Controlling(WITHOUT, 3, {}))
    ensures Holds(Step(s, Ask(0, AdoptDocument(WITH, Version(WITH, 4), true, false, 0), Completes)), 0,
                  Controlling(WITH, 4, {}))
  {
    Relists(TransitionOpen(s.disk, 0));
    AdoptHolds(s, 0, Controlling(WITHOUT, 3, {}), WITH, Version(WITH, 4), true, Controlling(WITH, 4, {}));
  }

  /**
   A promotion can forget a device. The document that confirms the promotion drops the phone without a
   trace, and an ordinary adoption lists it again.
   */
  lemma PromotionCanForgetADevice() returns (s: Store, e: Event, next: Event, r: Record, q: Record, p: Record)
    ensures Reachable(s) && Holds(s, 0, r) && Holds(Step(s, e), 0, q) && Holds(Step(Step(s, e), next), 0, p)
    ensures q.id == r.id && p.id == r.id
    ensures e.Ask? && Forgets(r, e.request) && !Revives(r, e.request) && next.Ask? && next.request.AdoptDocument?
    ensures "phone" in DeviceIds(r.document) && !Accounted(r, q) && "phone" in DeviceIds(p.document)
  {
    s := Listing();
    s := Imports(s, WITH, 2, {});
    e := Ask(0, ConfirmRoot(WITHOUT, Version(WITHOUT, 3), true, 0), Completes);
    next := Ask(0, AdoptDocument(WITH, Version(WITH, 4), true, false, 0), Completes);
    r, q, p := Waiting(WITH, 2, {}), Controlling(WITHOUT, 3, {}), Controlling(WITH, 4, {});
    ReachableInv(s);
    ConfirmsRoot(s, WITH, 2, {}, WITHOUT);
    RelistHolds(Step(s, e));
    Forgotten(r, q, p);
  }

  // Key ids of a batch that removes a device it added

  const WEB: Did := Web("example")

  const PLAIN: Document := Document(WEB, [], [], [], [], None, [], None)

  /** A Web identity as it is created. */
  function Created(document: Document, keys: seq<KeyMetadata>): Record {
    NewRecord(0, document, keys, RootAbsent, Checkpoint(1, 1, Digest(document)), None).(
      state := Active, initialPending := true)
  }

  lemma Creates(document: Document, keys: seq<KeyMetadata>)
    requires document.did == WEB && SoundBuild(document, keys)
    ensures Born(0, Creation(document, keys, None)) == Some(Created(document, keys))
  {
  }

  const TABLET: Device := Device("tablet", "a", "b", ["p"])

  const ADD_PHONE: DeviceEdit := AddDevice(PHONE, Ed25519("x"), X25519("y"))
  const ADD_TABLET: DeviceEdit := AddDevice(TABLET, Ed25519("x"), X25519("y"))
  const REMOVE_PHONE: DeviceEdit := RemoveDevice("phone")

  /** The record's document with the phone added. */
  function Phoned(): Draft {
    Draft(PLAIN.(methods := [Method("a", Ed25519("x")), Method("b", X25519("y"))],
                 authentication := ["a"], assertion := ["a"], agreement := ["b"], manifest := Some([PHONE])),
          [AddedKey("a", DeviceSigning), AddedKey("b", E2eeAgreement)], [], {})
  }

  /** And with the phone removed again. */
  function Unphoned(): Draft {
    Draft(PLAIN.(manifest := Some([])), Phoned().added, ["a", "b"], {"phone"})
  }

  lemma PhoneAdded(record: Record)
    requires record == Created(PLAIN, [])
    ensures EditDevice(Start(record, PLAIN), record, ADD_PHONE) == Ok(Phoned())
  {
    NotBlank("phone");
    NotBlank("p");
    assert "a"[0] != "b"[0];
    var draft := Start(record, PLAIN);
    assert draft.document.methods + Phoned().document.methods == Phoned().document.methods;
    assert draft.document.authentication + ["a"] == ["a"] && draft.document.agreement + ["b"] == ["b"];
    assert draft.document.Devices() + [PHONE] == [PHONE] && draft.added + Phoned().added == Phoned().added;
  }

  lemma PhoneRemoved(record: Record)
    requires record == Created(PLAIN, [])
    ensures EditDevice(Phoned(), record, REMOVE_PHONE) == Ok(Unphoned())
  {
    NotBlank("phone");
    var document := Phoned().document;
    assert WithoutMethods(document.methods, {"a", "b"}) == [];
    assert ["a"][..0] == [] && Without(["a"], "a") == [];
    assert ["b"][..0] == [] && Without(["b"], "b") == [];
    assert [PHONE][..0] + [PHONE][1..] == [];
    assert [] + ["a", "b"] == ["a", "b"] && {} + {"phone"} == {"phone"};
    assert DevicePosition([PHONE], "phone") == 0;
  }

  /** And with the same keys added for the tablet. */
  function Tableted(): Draft {
    Draft(Phoned().document.(manifest := Some([TABLET])), Phoned().added + Phoned().added, ["a", "b"], {"phone"})
  }

  lemma TabletAdded(record: Record)
    requires record == Created(PLAIN, [])
    ensures EditDevice(Unphoned(), record, ADD_TABLET) == Ok(Tableted())
  {
    NotBlank("tablet");
    NotBlank("p");
    assert "a"[0] != "b"[0] && "tablet"[0] != "phone"[0];
    var document := Unphoned().document;
    assert document.methods + Phoned().document.methods == Phoned().document.methods;
    assert document.authentication + ["a"] == ["a"] && document.agreement + ["b"] == ["b"];
    assert document.Devices() + [TABLET] == [TABLET];
  }

  lemma OneMoreEdit(draft: Draft, record: Record, front: seq<DeviceEdit>, before: Draft, last: DeviceEdit,
                    edits: seq<DeviceEdit>)
    requires EditDevices(draft, record, front) == Ok(before) && edits == front + [last]
    ensures EditDevices(draft, record, edits) == EditDevice(before, record, last)
  {
    assert edits[..|edits| - 1] == front;
  }

  lemma ThreeEdits(draft: Draft, record: Record, a: DeviceEdit, b: DeviceEdit, c: DeviceEdit, x: Draft, y: Draft)
    requires EditDevice(draft, record, a) == Ok(x) && EditDevice(x, record, b) == Ok(y)
    ensures EditDevices(draft, record, [a, b, c]) == EditDevice(y, record, c)
  {
    OneMoreEdit(draft, record, [], draft, a, [a]);
    OneMoreEdit(draft, record, [a], x, b, [a, b]);
    OneMoreEdit(draft, record, [a, b], y, c, [a, b, c]);
  }

  lemma SelfRemovalEdits(record: Record)
    requires record == Created(PLAIN, [])
    ensures EditDevices(Start(record, PLAIN), record, [ADD_PHONE, REMOVE_PHONE, ADD_TABLET]) == Ok(Tableted())
  {
    PhoneAdded(record);
    PhoneRemoved(record);
    TabletAdded(record);
    ThreeEdits(Start(record, PLAIN), record, ADD_PHONE, REMOVE_PHONE, ADD_TABLET, Phoned(), Unphoned());
  }

  const SELF_REMOVAL: UpdateSpec := UpdateSpec(None, [], [ADD_PHONE, REMOVE_PHONE, ADD_TABLET], None)
  const SETTING: Setting := Setting(Ed25519("z"), 0, true, true)

  lemma SelfRemovalKids(document: Document, spec: UpdateSpec)
    requires spec == SELF_REMOVAL
    ensures RotationFresh(document, spec) && !KeepsItsDevices(spec.devices) && !Distinct(SpecKids(spec))
  {
    var edits := spec.devices;
    assert edits[..2] == [ADD_PHONE, REMOVE_PHONE] && edits[..2][..1] == [ADD_PHONE] && [ADD_PHONE][..0] == [];
    assert DeviceKids([ADD_PHONE]) == ["a", "b"];
    assert DeviceKids(edits[..2]) == ["a", "b"];
    assert DeviceKids(edits) == ["a", "b", "a", "b"];
    assert SpecKids(spec)[0] == SpecKids(spec)[2];
    assert ADD_PHONE in edits && REMOVE_PHONE in edits;
  }

  lemma {:induction false} AddedFound(document: Document, added: seq<AddedKey>)
    requires forall key :: key in added ==> HasMethod(document.methods, key.kid)
    ensures AddedMetadata(document, added).Ok?
  {
    if added != [] {
      AddedFound(document, added[..|added| - 1]);
    }
  }

  /** The batch is accepted: all four ids it adds are in the candidate. */
  lemma SelfRemovalAccepted(record: Record, spec: UpdateSpec)
    requires record == Created(PLAIN, []) && spec == SELF_REMOVAL
    ensures !EmptySpec(spec) && Acceptable(record, spec, SETTING)
  {
    SelfRemovalEdits(record);
    assert record.document.WithoutProof() == PLAIN;
    var draft := Build(record, spec, SETTING).value;
    assert draft.added == Tableted().added && draft.document.methods == Tableted().document.methods;
    assert draft.document.methods[0].id == "a" && draft.document.methods[1].id == "b";
    AddedFound(draft.document, draft.added);
  }

  lemma PlainSound(r: Record)
    requires r == Created(PLAIN, [])
    ensures Born(0, Creation(PLAIN, [], None)) == Some(r) && r.state == Active && r.pending.None? && SoundRecord(r)
  {
    Creates(PLAIN, []);
  }

  lemma RepeatsCommit(r: Record, spec: UpdateSpec, setting: Setting)
    requires SoundRecord(r) && Acceptable(r, spec, setting) && !Distinct(SpecKids(spec))
    ensures !Distinct(KidList(KeysAfter(r, spec, setting)))
  {
    KidsUniqueIff(r, spec, setting);
  }

  /**
   A batch that removes a device it added and adds its keys again repeats their ids. In a new store: a
   Web identity is created and the batch is prepared; its revision commits every id twice.
   */
  lemma SelfRemovalRepeatsKids() returns (s: Store, e: Event, r: Record, q: Record)
    ensures Reachable(s) && Holds(s, 0, r) && Holds(Step(s, e), 0, q) && e.Ask? && e.request.Propose?
    ensures SoundRecord(r) && RotationFresh(r.document, e.request.spec)
    ensures !KeepsItsDevices(e.request.spec.devices) && !Distinct(SpecKids(e.request.spec))
    ensures q.pending.Some?
    ensures !Distinct(KidList(RetireAll(q.keys, q.pending.value.retiredKids) + q.pending.value.newKeys))
  {
    var spec: UpdateSpec;
    r, spec := Created(PLAIN, []), SELF_REMOVAL;
    PlainSound(r);
    SelfRemovalAccepted(r, spec);
    SelfRemovalKids(r.document, spec);
    RepeatsCommit(r, spec, SETTING);
    s, e, q := FirstRevision(Creation(PLAIN, [], None), r, spec, SETTING);
  }

  // A rotation to an id that someone else published

  const OWN: Document := Document(WEB, [Method("k", Ed25519("x"))], ["k"], [], [], None, [], None)
  const SHARED: Document := OWN.(methods := [Method("k", Ed25519("x")), Method("n", Ed25519("y"))],
                                 authentication := ["k", "n"])

  const OLD_KEY: KeyMetadata := KeyMetadata("k", RequestSigning, Managed, KeyActive, false, 1, Ed25519("x"))

  const ROTATION: UpdateSpec := UpdateSpec(Some(Rotation("k", "n")), [], [], None)

  /** The created identity once it has adopted the shared document. */
  function Sharing(): Record {
    Created(OWN, [OLD_KEY]).(
      document := SHARED, checkpoint := Checkpoint(2, 2, Digest(SHARED)), revision := 2, generation := 2,
      initialPending := false)
  }

  lemma Shares(open: bool)
    ensures Adopt(Created(OWN, [OLD_KEY]), SHARED, Version(SHARED, 2), false, open) == Adopted(Sharing())
  {
    var r := Created(OWN, [OLD_KEY]);
    assert DeviceIds(OWN) == {} && DeviceIds(SHARED) == {};
    assert r.retiredDevices * DeviceIds(SHARED) == {} && r.retiredDevices + (DeviceIds(OWN) - DeviceIds(SHARED)) == {};
  }

  lemma SharedStore() returns (s: Store)
    ensures Reachable(s) && Holds(s, 0, Sharing()) && s.used == {0}
  {
    s := FirstIdentity(Creation(OWN, [OLD_KEY], None));
    ReachableInv(s);
    Shares(TransitionOpen(s.disk, 0));
    AdoptHolds(s, 0, Created(OWN, [OLD_KEY]), SHARED, Version(SHARED, 2), true, Sharing());
    ReachableStep(s, Ask(0, AdoptDocument(SHARED, Version(SHARED, 2), true, false, 0), Completes));
    s := Step(s, Ask(0, AdoptDocument(SHARED, Version(SHARED, 2), true, false, 0), Completes));
  }

  lemma RotationAccepted(record: Record)
    requires record == Sharing()
    ensures Sound(record.document, record.keys) && Acceptable(record, ROTATION, SETTING)
    ensures !RotationFresh(record.document, ROTATION)
  {
    assert "k"[0] != "n"[0];
    assert SHARED.methods[0].id == "k" && SHARED.methods[1].id == "n";
    assert HasMethod(SHARED.methods, "k") && HasMethod(SHARED.methods, "n");
    assert FindKey(record.keys, "k") == Some(OLD_KEY) && !HasKey(record.keys, "n");
    var draft := Start(record, Rotate(SHARED, record, ROTATION.rotation.value, SETTING.publicKey).value);
    assert EditKeys(draft, record, []) == Ok(draft) && EditDevices(draft, record, []) == Ok(draft);
    assert record.document.WithoutProof() == SHARED;
    assert draft.document.methods[1].id == "n";
  }

  /** The rotated key is recorded with the other party's public key. */
  lemma RotationRecordsAnother(record: Record) returns (key: KeyMetadata)
    requires record == Sharing() && Sound(record.document, record.keys) && Acceptable(record, ROTATION, SETTING)
    ensures var draft := Build(record, ROTATION, SETTING).value;
      key in NewKeys(draft.document, draft, ROTATION).value
    ensures Sealed(key) && key.publicKey == Ed25519("y") && key.publicKey != SETTING.publicKey
  {
    var draft := Build(record, ROTATION, SETTING).value;
    assert "k"[0] != "n"[0] && "y"[0] != "z"[0];
    assert SHARED.methods[1..][0] == Method("n", Ed25519("y"));
    assert FindMethod(SHARED.methods, "n") == Some(Method("n", Ed25519("y")));
    RotatedKeyIs(record, ROTATION, SETTING);
    var keys := NewKeys(draft.document, draft, ROTATION).value;
    key := keys[|keys| - 1];
  }

  lemma RotationSpoilsSharing(record: Record) returns (key: KeyMetadata)
    requires record == Sharing()
    ensures SoundRecord(record) && Acceptable(record, ROTATION, SETTING) && !RotationFresh(record.document, ROTATION)
    ensures Distinct(SpecKids(ROTATION)) && !EmptySpec(ROTATION)
    ensures !UniqueMethods(Build(record, ROTATION, SETTING).value.document.methods)
    ensures var draft := Build(record, ROTATION, SETTING).value;
      key in NewKeys(draft.document, draft, ROTATION).value
    ensures Sealed(key) && key.publicKey != SETTING.publicKey
  {
    RotationAccepted(record);
    SpoiledRepeats(record, ROTATION, SETTING, Build(record, ROTATION, SETTING).value);
    key := RotationRecordsAnother(record);
  }

  /**
   A rotation compares its new id only with the local keys. In a new store: a Web identity is created, a
   document that publishes an id for another party is adopted, and a rotation to that id is prepared;
   its candidate holds two methods of one id, and the new managed key is recorded with the public key
   of the other party. The verdict of the document validators is part of the setting, here in favour.
   */
  lemma RotationOntoPublishedId() returns (s: Store, e: Event, r: Record, q: Record)
    ensures Reachable(s) && Holds(s, 0, r) && Holds(Step(s, e), 0, q) && e.Ask? && e.request.Propose?
    ensures SoundRecord(r) && !RotationFresh(r.document, e.request.spec) && Distinct(SpecKids(e.request.spec))
    ensures q.pending.Some? && !UniqueMethods(q.pending.value.candidate.methods)
    ensures exists key :: key in q.pending.value.newKeys && Sealed(key) && key.publicKey != e.request.setting.publicKey
  {
    r := Sharing();
    e := Ask(0, Propose(1, ROTATION, SETTING), Completes);
    var key := RotationSpoilsSharing(r);
    s := SharedStore();
    q := Prepares(s, r, ROTATION, SETTING);
    assert key in q.pending.value.newKeys;
  }
}
