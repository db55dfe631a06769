/**
 Every operation that changes the store is one of a few journaled changes. From a consistent store
 without journals, stopping a change after any of its writes and recovering leaves a consistent
 store that is either the one before the change or the one after it.
 */
module CrashAtomicity {
  import opened Model
  import opened Writes
  import opened Recovery

  // Consistency of a store at rest

  /** What a stored record keeps, whatever its identity is doing. */
  ghost predicate WellKept(record: Record) {
    && record.state != Creating
    && Readable(record)
    && (record.root == RootAbsent ==> forall key :: key in record.keys && key.role == RootControl ==> !Sealed(key))
    && (record.pending.Some? ==>
          && RefSet(record.pending.value.refs) !! KeyRefs(record.id, record.keys)
          && forall ref :: ref in record.pending.value.refs ==> ref.identity == record.id)
  }

  /** The registry lists exactly the stored records. */
  ghost predicate RegistryMatches(d: Disk) {
    && (forall id :: id in d.records ==>
          && d.records[id].id == id
          && d.records[id].did in d.registry.identities
          && d.registry.identities[d.records[id].did] == d.records[id].Summary())
    && (forall did :: did in d.registry.identities ==>
          && d.registry.identities[did].id in d.records
          && d.records[d.registry.identities[did].id].did == did)
  }

  /** The sealed secrets are exactly the ones some stored record accounts for. */
  ghost predicate SecretsConserved(d: Disk) {
    forall ref :: ref in d.secrets <==> ref.identity in d.records && ref in Owed(d.records[ref.identity])
  }

  ghost predicate Consistent(d: Disk) {
    && d.journals == map[] && d.updates == map[]
    && RegistryMatches(d)
    && (forall id :: id in d.records ==> WellKept(d.records[id]))
    && SecretsConserved(d)
  }

  /** `open_identity` succeeds. */
  predicate Opens(d: Disk, did: Did) {
    && did in d.registry.identities
    && var id := d.registry.identities[did].id;
    && CanRead(d, id)
    && d.records[id].did == did
    && d.records[id].state != Creating
    && d.records[id].state == d.registry.identities[did].state
  }

  lemma EveryRegisteredDidOpens(d: Disk, did: Did)
    requires Consistent(d) && did in d.registry.identities
    ensures Opens(d, did)
  {
    var id := d.registry.identities[did].id;
    assert d.records[id].did == did && WellKept(d.records[id]);
  }

  // Changes

  datatype Change =
    | Persist(record: Record)
    | Prepare(record: Record)
    | Cleanup(record: Record)
    | Transit(tx: Id, record: Record)
    | Import(tx: Id, ref: SecretRef, record: Record)
    | Found(tx: Id, record: Record)
    | Delete(tx: Id, identity: Id)

  lemma KeyRefsAppend(identity: Id, keys: seq<KeyMetadata>, more: seq<KeyMetadata>)
    ensures KeyRefs(identity, keys + more) == KeyRefs(identity, keys) + KeyRefs(identity, more)
  {
    forall ref
      ensures ref in KeyRefs(identity, keys + more) <==> ref in KeyRefs(identity, keys) + KeyRefs(identity, more)
    {
      if ref in KeyRefs(identity, keys) + KeyRefs(identity, more) {
        var key :| (key in keys || key in more) && Sealed(key) && ref == RefOf(identity, key);
        assert key in keys + more;
      }
    }
  }

  /** References of the sealed keys, in the order of the keys. */
  function RefList(identity: Id, keys: seq<KeyMetadata>): (refs: seq<SecretRef>)
    ensures RefSet(refs) == KeyRefs(identity, keys)
  {
    if keys == [] then []
    else
      var front, key := keys[..|keys| - 1], keys[|keys| - 1];
      var rest := RefList(identity, front);
      assert keys == front + [key];
      KeyRefsAppend(identity, front, [key]);
      if Sealed(key) then
        assert key in [key];
        rest + [RefOf(identity, key)]
      else rest
  }

  function Listed(registry: Registry, record: Record): Registry {
    Registry(registry.generation + 1, registry.identities[record.did := record.Summary()])
  }

  /** A created identity is first written as `Creating`; an enrolled one is written once. */
  function FirstForm(record: Record): Record {
    if record.state == Active then record.(state := Creating) else record
  }

  function FoundTail(d: Disk, tx: Id, record: Record): seq<Write> {
    [PutRecord(FirstForm(record)), PutRegistry(Listed(d.registry, record))]
    + (if record.state == Active then [PutRecord(record)] else [])
    + [DropJournal(tx)]
  }

  /** The writes of a change, in the order the store makes them. */
  function ChangeWrites(d: Disk, c: Change): seq<Write>
    requires c.Prepare? ==> c.record.pending.Some?
    requires c.Cleanup? ==> c.record.id in d.records && d.records[c.record.id].pending.Some?
    requires c.Delete? ==> c.identity in d.records
  {
    match c
    case Persist(r) => [PutRecord(r)]
    case Prepare(r) =>
      var p := r.pending.value;
      [PutUpdate(UpdateJournal(PrepareUpdate, p.id, r.id, p.refs))] + (Seals(p.refs) + [PutRecord(r), DropUpdate(p.id)])
    case Cleanup(r) =>
      var p := d.records[r.id].pending.value;
      [PutUpdate(UpdateJournal(CleanupUpdate, p.id, r.id, p.refs)), PutRecord(r)]
      + (DropSecrets(p.refs) + [DropUpdate(p.id)])
    case Transit(tx, r) =>
      [PutJournal(Journal(TransitionState, tx, r.id, r.did, [])), PutRecord(r),
       PutRegistry(Listed(d.registry, r)), DropJournal(tx)]
    case Import(tx, ref, r) =>
      [PutJournal(Journal(ImportRoot, tx, r.id, r.did, [ref])), Seal(ref), PutRecord(r),
       PutRegistry(Listed(d.registry, r)), DropJournal(tx)]
    case Found(tx, r) =>
      var refs := RefList(r.id, r.keys);
      [PutJournal(Journal(CreateIdentity, tx, r.id, r.did, refs))] + (Seals(refs) + FoundTail(d, tx, r))
    case Delete(tx, id) =>
      var r := d.records[id];
      var refs := RefList(id, r.keys);
      [PutJournal(Journal(DeleteNamespace, tx, id, r.did, refs))]
      + (DropSecrets(refs)
         + [DropRecord(id), PutRegistry(Registry(d.registry.generation + 1, d.registry.identities - {r.did})),
            DropJournal(tx)])
  }

  /** A change of a stored record leaves its identity alone and accounts for the given secrets. */
  ghost predicate Replaces(d: Disk, record: Record, owed: set<SecretRef>) {
    && record.id in d.records
    && record.did == d.records[record.id].did
    && WellKept(record)
    && Owed(record) == owed
  }

  /** What the operations establish before they start writing. */
  ghost predicate Admissible(d: Disk, c: Change) {
    match c
    case Persist(r) =>
      && Replaces(d, r, if r.id in d.records then Owed(d.records[r.id]) else {})
      && r.Summary() == d.records[r.id].Summary()
    case Prepare(r) =>
      && r.id in d.records && d.records[r.id].pending.None? && r.pending.Some?
      && r.Summary() == d.records[r.id].Summary()
      && Replaces(d, r, Owed(d.records[r.id]) + RefSet(r.pending.value.refs))
      && RefSet(r.pending.value.refs) !! d.secrets
    case Cleanup(r) =>
      && r.id in d.records && d.records[r.id].pending.Some?
      && r == Cleared(d.records[r.id])
    case Transit(tx, r) =>
      Replaces(d, r, if r.id in d.records then Owed(d.records[r.id]) else {})
    case Import(tx, ref, r) =>
      && r.id in d.records
      && Replaces(d, r, Owed(d.records[r.id]) + {ref})
      && ref !in d.secrets && ref.identity == r.id
      && d.records[r.id].root == RootAbsent && RootImported(r)
    case Found(tx, r) =>
      && r.id !in d.records && r.did !in d.registry.identities
      && WellKept(r) && r.pending.None? && (r.state == Active || r.state == Enrolling)
    case Delete(tx, id) =>
      id in d.records && d.records[id].pending.None?
  }

  /** The disk once a change is complete. */
  function After(d: Disk, c: Change): Disk
    requires c.Prepare? ==> c.record.pending.Some?
    requires c.Cleanup? ==> c.record.id in d.records && d.records[c.record.id].pending.Some?
    requires c.Delete? ==> c.identity in d.records
  {
    match c
    case Persist(r) => d.(records := d.records[r.id := r])
    case Prepare(r) => d.(records := d.records[r.id := r], secrets := d.secrets + RefSet(r.pending.value.refs))
    case Cleanup(r) =>
      d.(records := d.records[r.id := r], secrets := d.secrets - RefSet(d.records[r.id].pending.value.refs))
    case Transit(tx, r) => d.(records := d.records[r.id := r], registry := Listed(d.registry, r))
    case Import(tx, ref, r) =>
      d.(records := d.records[r.id := r], secrets := d.secrets + {ref}, registry := Listed(d.registry, r))
    case Found(tx, r) =>
      d.(records := d.records[r.id := r], secrets := d.secrets + RefSet(RefList(r.id, r.keys)),
         registry := Listed(d.registry, r))
    case Delete(tx, id) =>
      d.(records := d.records - {id}, secrets := d.secrets - RefSet(RefList(id, d.records[id].keys)),
         registry := Registry(d.registry.generation + 1, d.registry.identities - {d.records[id].did}))
  }

  /** The same disk with the registry generation not advanced: recovery does not rewrite an unchanged registry. */
  function Quiet(d: Disk, after: Disk): Disk {
    after.(registry := after.registry.(generation := d.registry.generation))
  }

  // Recovery of a disk with one journal

  lemma RecoverOneJournal(d: Disk, tx: Id)
    requires d.journals.Keys == {tx} && d.updates == map[]
    requires JournalWrites(d, tx).Some?
    ensures Recover(d).ok && Recovered(d) == ApplyAll(d, JournalWrites(d, tx).value)
  {
    var ws := JournalWrites(d, tx).value;
    JournalDone(d, tx, ws);
    assert Least({tx}) == tx && {tx} - {tx} == {};
    assert RecoverJournals(ApplyAll(d, ws), {}) == Trace([], true);
    assert ws + [] == ws;
  }

  /** The single journal of the disk leads to `end`. */
  ghost predicate EndsAt(d: Disk, tx: Id, end: Disk) {
    tx in d.journals && JournalWrites(d, tx).Some? && ApplyAll(d, JournalWrites(d, tx).value) == end
  }

  lemma RecoversTo(d: Disk, tx: Id, end: Disk)
    requires d.journals.Keys == {tx} && d.updates == map[] && EndsAt(d, tx, end)
    ensures Recover(d).ok && Recovered(d) == end
  {
    RecoverOneJournal(d, tx);
  }

  lemma RecoverOneUpdate(d: Disk, revision: Id)
    requires d.journals == map[] && d.updates.Keys == {revision}
    requires UpdateWrites(d, revision).Some?
    ensures Recover(d).ok && Recovered(d) == Updated(d, revision)
  {
    var ws := UpdateWrites(d, revision).value;
    UpdateEffect(d, revision);
    assert Least({revision}) == revision && {revision} - {revision} == {};
    assert RecoverJournals(d, {}) == Trace([], true) && ApplyAll(d, []) == d;
    assert RecoverUpdates(ApplyAll(d, ws), {}) == Trace([], true);
    assert ws + [] == ws && [] + ws == ws;
  }

  lemma RecoverNothing(d: Disk)
    requires d.journals == map[] && d.updates == map[]
    ensures Recover(d) == Trace([], true) && Recovered(d) == d
  {
    assert ApplyAll(d, []) == d;
  }

  // Each change, stopped after any prefix of its writes

  /** Stopping after `k` writes and recovering ends before or after the change. */
  ghost predicate Atomic(d: Disk, c: Change, k: nat)
    requires Admissible(d, c) && k <= |ChangeWrites(d, c)|
  {
    var part := ApplyAll(d, ChangeWrites(d, c)[..k]);
    && Recover(part).ok
    && (|| Recovered(part) == d
        || Recovered(part) == After(d, c)
        || (&& c.Transit? && c.record.Summary() == d.records[c.record.id].Summary()
            && Recovered(part) == Quiet(d, After(d, c))))
  }

  lemma PrefixOfSealsThen(d: Disk, refs: seq<SecretRef>, more: seq<Write>, k: nat) returns (part: Disk)
    requires k <= |refs| + |more|
    ensures part == ApplyAll(d, (Seals(refs) + more)[..k])
    ensures k <= |refs| ==>
      part == d.(secrets := part.secrets) && d.secrets <= part.secrets <= d.secrets + RefSet(refs)
    ensures k > |refs| ==> part == ApplyAll(d.(secrets := d.secrets + RefSet(refs)), more[..k - |refs|])
  {
    part := ApplyAll(d, (Seals(refs) + more)[..k]);
    PrefixSplit(d, Seals(refs), more, k);
    ApplySeals(d, refs);
    if k <= |refs| {
      ApplySealPrefix(d, refs, k);
    }
  }

  lemma AfterOne(d: Disk, first: Write, more: seq<Write>, k: nat)
    requires 1 <= k <= 1 + |more|
    ensures ApplyAll(d, ([first] + more)[..k]) == ApplyAll(Apply(d, first), more[..k - 1])
  {
    PrefixSplit(d, [first], more, k);
    ApplyOne(d, first);
    assert [first][..1] == [first];
    assert more[..0] == [];
  }

  lemma PersistAtomic(d: Disk, c: Change, k: nat)
    requires Consistent(d) && c.Persist? && Admissible(d, c) && k <= |ChangeWrites(d, c)|
    ensures Atomic(d, c, k)
  {
    var ws := ChangeWrites(d, c);
    ApplyOne(d, ws[0]);
    assert ws[..0] == [] && ws[..1] == ws;
    RecoverNothing(d);
    RecoverNothing(After(d, c));
  }

  // Preparing a revision

  lemma PrepareShape(d: Disk, r: Record, p: Revision, k: nat) returns (part: Disk)
    requires d.updates == map[] && r.pending == Some(p) && k <= |p.refs| + 3
    ensures |ChangeWrites(d, Prepare(r))| == |p.refs| + 3
    ensures part == ApplyAll(d, ChangeWrites(d, Prepare(r))[..k])
    ensures var u := map[p.id := UpdateJournal(PrepareUpdate, p.id, r.id, p.refs)];
      && (k == 0 ==> part == d)
      && (1 <= k <= |p.refs| + 1 ==>
            part == d.(updates := u,
                       secrets := part.secrets) && d.secrets <= part.secrets <= d.secrets + RefSet(p.refs))
      && (k == |p.refs| + 2 ==>
            part == d.(updates := u, secrets := d.secrets + RefSet(p.refs), records := d.records[r.id := r]))
      && (k == |p.refs| + 3 ==> part == d.(secrets := d.secrets + RefSet(p.refs), records := d.records[r.id := r]))
  {
    var first := PutUpdate(UpdateJournal(PrepareUpdate, p.id, r.id, p.refs));
    var tail := [PutRecord(r), DropUpdate(p.id)];
    var ws := [first] + (Seals(p.refs) + tail);
    assert ws == ChangeWrites(d, Prepare(r));
    if k == 0 {
      assert ws[..0] == [];
      part := d;
    } else {
      var begun := Apply(d, first);
      AfterOne(d, first, Seals(p.refs) + tail, k);
      part := PrefixOfSealsThen(begun, p.refs, tail, k - 1);
      if k - 1 > |p.refs| {
        var filled := begun.(secrets := begun.secrets + RefSet(p.refs));
        assert tail[..1] == [tail[0]] && tail[..2] == tail;
        ApplyOne(filled, tail[0]);
        ApplyTwo(filled, tail[0], tail[1]);
        assert begun.updates - {p.id} == map[];
      }
    }
  }

  lemma PrepareAtomic(d: Disk, c: Change, k: nat)
    requires Consistent(d) && c.Prepare? && Admissible(d, c) && k <= |ChangeWrites(d, c)|
    ensures Atomic(d, c, k)
  {
    var p := c.record.pending.value;
    var part := PrepareShape(d, c.record, p, k);
    if k == 0 || k == |p.refs| + 3 {
      RecoverNothing(part);
    } else if k <= |p.refs| + 1 {
      assert d.records[c.record.id].id == c.record.id && WellKept(d.records[c.record.id]);
      PrepareRollsBack(d, c.record, p, part);
    } else {
      PrepareRollsForward(d, c.record, p, part);
    }
  }

  lemma PrepareRollsBack(d: Disk, r: Record, p: Revision, part: Disk)
    requires d.journals == map[] && d.updates == map[] && CanRead(d, r.id) && d.records[r.id].pending.None?
    requires part
      == d.(updates := map[p.id := UpdateJournal(PrepareUpdate, p.id, r.id, p.refs)], secrets := part.secrets)
    requires d.secrets <= part.secrets <= d.secrets + RefSet(p.refs) && RefSet(p.refs) !! d.secrets
    ensures Recover(part).ok && Recovered(part) == d
  {
    assert part.secrets - RefSet(p.refs) == d.secrets && part.updates - {p.id} == map[];
    RecoverOneUpdate(part, p.id);
  }

  lemma PrepareRollsForward(d: Disk, r: Record, p: Revision, part: Disk)
    requires d.journals == map[] && d.updates == map[] && Readable(r) && r.pending == Some(p)
    requires part == d.(updates := map[p.id := UpdateJournal(PrepareUpdate, p.id, r.id, p.refs)],
                        secrets := d.secrets + RefSet(p.refs), records := d.records[r.id := r])
    ensures Recover(part).ok && Recovered(part) == After(d, Prepare(r))
  {
    assert part.updates - {p.id} == map[];
    RecoverOneUpdate(part, p.id);
  }

  // Cleaning a revision up

  /** Dropping secrets and then the journal, up to some point. */
  lemma DropsAndClose(d: Disk, refs: seq<SecretRef>, revision: Id, k: nat) returns (part: Disk)
    requires k <= |refs| + 1
    ensures part == ApplyAll(d, (DropSecrets(refs) + [DropUpdate(revision)])[..k])
    ensures k <= |refs| ==>
      part == d.(secrets := part.secrets) && part.secrets - RefSet(refs) == d.secrets - RefSet(refs)
    ensures k > |refs| ==> part == d.(secrets := d.secrets - RefSet(refs), updates := d.updates - {revision})
  {
    part := PrefixOfDropsThen(d, refs, [DropUpdate(revision)], k);
    if k > |refs| {
      assert [DropUpdate(revision)][..1] == [DropUpdate(revision)];
      ApplyOne(Dropping(d, refs), DropUpdate(revision));
    } else {
      assert Dropping(part, refs).secrets == Dropping(d, refs).secrets;
    }
  }

  lemma AfterTwo(d: Disk, first: Write, second: Write, more: seq<Write>, k: nat)
    requires 2 <= k <= 2 + |more|
    ensures ApplyAll(d, ([first, second] + more)[..k]) == ApplyAll(Apply(Apply(d, first), second), more[..k - 2])
  {
    assert [first, second] + more == [first] + ([second] + more);
    AfterOne(d, first, [second] + more, k);
    AfterOne(Apply(d, first), second, more, k - 1);
  }

  lemma CleanupShape(d: Disk, r: Record, p: Revision, k: nat) returns (part: Disk)
    requires d.updates == map[] && r.id in d.records && d.records[r.id].pending == Some(p) && k <= |p.refs| + 3
    ensures |ChangeWrites(d, Cleanup(r))| == |p.refs| + 3
    ensures part == ApplyAll(d, ChangeWrites(d, Cleanup(r))[..k])
    ensures var u := map[p.id := UpdateJournal(CleanupUpdate, p.id, r.id, p.refs)];
      && (k == 0 ==> part == d)
      && (k == 1 ==> part == d.(updates := u))
      && (2 <= k < |p.refs| + 3 ==>
            && part == d.(updates := u, records := d.records[r.id := r], secrets := part.secrets)
            && part.secrets - RefSet(p.refs) == d.secrets - RefSet(p.refs))
      && (k == |p.refs| + 3 ==> part == d.(records := d.records[r.id := r], secrets := d.secrets - RefSet(p.refs)))
  {
    var first, second := PutUpdate(UpdateJournal(CleanupUpdate, p.id, r.id, p.refs)), PutRecord(r);
    var rest := DropSecrets(p.refs) + [DropUpdate(p.id)];
    var ws := [first, second] + rest;
    assert ws == ChangeWrites(d, Cleanup(r));
    if k == 0 {
      assert ws[..0] == [];
      part := d;
    } else if k == 1 {
      assert ws[..1] == [first];
      ApplyOne(d, first);
      part := Apply(d, first);
    } else {
      AfterTwo(d, first, second, rest, k);
      part := DropsAndClose(Apply(Apply(d, first), second), p.refs, p.id, k - 2);
      assert Apply(d, first).updates - {p.id} == map[];
    }
  }

  lemma CleanupAtomic(d: Disk, c: Change, k: nat)
    requires Consistent(d) && c.Cleanup? && Admissible(d, c) && k <= |ChangeWrites(d, c)|
    ensures Atomic(d, c, k)
  {
    var p := d.records[c.record.id].pending.value;
    var part := CleanupShape(d, c.record, p, k);
    if k == 0 || k == |p.refs| + 3 {
      RecoverNothing(part);
    } else {
      assert d.records[c.record.id].id == c.record.id && WellKept(d.records[c.record.id]);
      RecoverOneUpdate(part, p.id);
      assert Updated(part, p.id) == After(d, c);
    }
  }

  // Changing a record together with its registry entry

  /** The disk after a prefix of the writes of a state transition. */
  function TransitPart(d: Disk, tx: Id, r: Record, k: nat): Disk {
    if k == 0 then d
    else d.(journals := if k == 4 then d.journals - {tx}
                        else d.journals[tx := Journal(TransitionState, tx, r.id, r.did, [])],
            records := if k == 1 then d.records else d.records[r.id := r],
            registry := if k <= 2 then d.registry else Listed(d.registry, r))
  }

  lemma TransitStep(d: Disk, tx: Id, r: Record, k: nat)
    requires k < 4
    ensures Apply(TransitPart(d, tx, r, k), ChangeWrites(d, Transit(tx, r))[k]) == TransitPart(d, tx, r, k + 1)
  {
    var journal := Journal(TransitionState, tx, r.id, r.did, []);
    assert d.journals[tx := journal] - {tx} == d.journals - {tx};
  }

  lemma TransitShape(d: Disk, tx: Id, r: Record, k: nat)
    requires k <= 4
    ensures ApplyAll(d, ChangeWrites(d, Transit(tx, r))[..k]) == TransitPart(d, tx, r, k)
  {
    var ws := ChangeWrites(d, Transit(tx, r));
    if k == 0 {
      assert ws[..0] == [];
    } else {
      TransitShape(d, tx, r, k - 1);
      NextWrite(d, ws, k - 1);
      TransitStep(d, tx, r, k - 1);
    }
  }

  lemma TransitAtomic(d: Disk, c: Change, k: nat)
    requires Consistent(d) && c.Transit? && Admissible(d, c) && k <= |ChangeWrites(d, c)|
    ensures Atomic(d, c, k)
  {
    TransitShape(d, c.tx, c.record, k);
    var part := TransitPart(d, c.tx, c.record, k);
    if k == 0 {
      RecoverNothing(d);
    } else if k == 4 {
      assert part == After(d, c);
      RecoverNothing(part);
    } else {
      TransitRecovers(d, c, k, part);
    }
  }

  /** Where recovery of a state transition stopped after its first, second or third write ends. */
  function TransitEnd(d: Disk, c: Change, k: nat): Disk
    requires c.Transit? && c.record.id in d.records
  {
    if k == 1 then d
    else if k == 2 && c.record.Summary() == d.records[c.record.id].Summary() then Quiet(d, After(d, c))
    else After(d, c)
  }

  lemma SyncEnds(part: Disk, tx: Id, r: Record, end: Disk)
    requires part.journals == map[tx := Journal(TransitionState, tx, r.id, r.did, [])]
    requires r.id in part.records && part.records[r.id] == r && Readable(r)
    requires end == part.(registry := Synced(part, r), journals := map[])
    ensures EndsAt(part, tx, end)
  {
    assert part.journals - {tx} == map[];
    SyncEffect(part, tx);
  }

  lemma TransitEnds(d: Disk, c: Change, k: nat, part: Disk)
    requires d.journals == map[] && RegistryMatches(d) && c.Transit? && 1 <= k <= 3
    requires c.record.id in d.records && d.records[c.record.id].did == c.record.did
    requires Readable(c.record) && Readable(d.records[c.record.id])
    requires part == TransitPart(d, c.tx, c.record, k)
    ensures EndsAt(part, c.tx, TransitEnd(d, c, k))
  {
    var r := c.record;
    var stored := d.records[r.id];
    if k == 1 {
      SyncEnds(part, c.tx, stored, d);
    } else {
      if k == 2 && r.Summary() == stored.Summary() {
        assert d.registry.identities == d.registry.identities[r.did := r.Summary()];
      }
      SyncEnds(part, c.tx, r, TransitEnd(d, c, k));
    }
  }

  lemma TransitRecovers(d: Disk, c: Change, k: nat, part: Disk)
    requires Consistent(d) && c.Transit? && Admissible(d, c) && 1 <= k <= 3
    requires part == TransitPart(d, c.tx, c.record, k)
    ensures Recover(part).ok && Recovered(part) == TransitEnd(d, c, k)
  {
    assert WellKept(d.records[c.record.id]);
    TransitEnds(d, c, k, part);
    RecoversTo(part, c.tx, TransitEnd(d, c, k));
  }

  // Importing a root key

  /** The disk after a prefix of the writes of a root import. */
  function ImportPart(d: Disk, tx: Id, ref: SecretRef, r: Record, k: nat): Disk {
    if k == 0 then d
    else d.(journals := if k == 5 then d.journals - {tx}
                        else d.journals[tx := Journal(ImportRoot, tx, r.id, r.did, [ref])],
            secrets := if k == 1 then d.secrets else d.secrets + {ref},
            records := if k <= 2 then d.records else d.records[r.id := r],
            registry := if k <= 3 then d.registry else Listed(d.registry, r))
  }

  lemma ImportStep(d: Disk, tx: Id, ref: SecretRef, r: Record, k: nat)
    requires k < 5
    ensures Apply(ImportPart(d, tx, ref, r, k), ChangeWrites(d, Import(tx, ref, r))[k])
      == ImportPart(d, tx, ref, r, k + 1)
  {
    var journal := Journal(ImportRoot, tx, r.id, r.did, [ref]);
    assert d.journals[tx := journal] - {tx} == d.journals - {tx};
  }

  lemma ImportShape(d: Disk, tx: Id, ref: SecretRef, r: Record, k: nat)
    requires k <= 5
    ensures ApplyAll(d, ChangeWrites(d, Import(tx, ref, r))[..k]) == ImportPart(d, tx, ref, r, k)
  {
    var ws := ChangeWrites(d, Import(tx, ref, r));
    if k == 0 {
      assert ws[..0] == [];
    } else {
      ImportShape(d, tx, ref, r, k - 1);
      NextWrite(d, ws, k - 1);
      ImportStep(d, tx, ref, r, k - 1);
    }
  }

  lemma ImportAtomic(d: Disk, c: Change, k: nat)
    requires Consistent(d) && c.Import? && Admissible(d, c) && k <= |ChangeWrites(d, c)|
    ensures Atomic(d, c, k)
  {
    ImportShape(d, c.tx, c.ref, c.record, k);
    var part := ImportPart(d, c.tx, c.ref, c.record, k);
    assert d.records[c.record.id].id == c.record.id && WellKept(d.records[c.record.id]);
    if k == 0 || k == 5 {
      assert k == 5 ==> part == After(d, c);
      RecoverNothing(part);
    } else if k <= 2 {
      ImportRollsBack(d, c.tx, c.ref, c.record, part);
    } else {
      ImportRollsForward(d, c.tx, c.ref, c.record, part);
    }
  }

  lemma ImportDropEnds(part: Disk, tx: Id, ref: SecretRef, r: Record, end: Disk)
    requires part.journals == map[tx := Journal(ImportRoot, tx, r.id, r.did, [ref])]
    requires r.id in part.records && part.records[r.id] == r && Readable(r) && r.root == RootAbsent
    requires end == part.(secrets := part.secrets - {ref}, journals := map[])
    ensures EndsAt(part, tx, end)
  {
    assert part.journals - {tx} == map[] && RefSet([ref]) == {ref};
    assert JournalWrites(part, tx) == Some(DropSecrets([ref]) + [DropJournal(tx)]);
    ApplyDropsThen(part, [ref], [DropJournal(tx)]);
    ApplyOne(Dropping(part, [ref]), DropJournal(tx));
  }

  lemma ImportRollsBack(d: Disk, tx: Id, ref: SecretRef, r: Record, part: Disk)
    requires d.journals == map[] && d.updates == map[] && CanRead(d, r.id) && d.records[r.id].did == r.did
    requires d.records[r.id].root == RootAbsent
    requires part == d.(journals := map[tx := Journal(ImportRoot, tx, r.id, r.did, [ref])], secrets := part.secrets)
    requires part.secrets - {ref} == d.secrets
    ensures Recover(part).ok && Recovered(part) == d
  {
    ImportDropEnds(part, tx, ref, d.records[r.id], d);
    RecoversTo(part, tx, d);
  }

  lemma ImportEnds(d: Disk, tx: Id, ref: SecretRef, r: Record, part: Disk)
    requires d.journals == map[] && Readable(r) && RootImported(r)
    requires part.journals == map[tx := Journal(ImportRoot, tx, r.id, r.did, [ref])]
    requires part
      == d.(journals := part.journals, secrets := d.secrets + {ref}, records := d.records[r.id := r],
            registry := part.registry)
    requires part.registry == Listed(d.registry, r)
          || (&& part.registry == d.registry
              && (r.did in d.registry.identities ==> d.registry.identities[r.did] != r.Summary()))
    ensures EndsAt(part, tx, After(d, Import(tx, ref, r)))
  {
    assert part.journals - {tx} == map[] && Synced(part, r) == Listed(d.registry, r);
    SyncEffect(part, tx);
  }

  lemma ImportRollsForward(d: Disk, tx: Id, ref: SecretRef, r: Record, part: Disk)
    requires d.journals == map[] && d.updates == map[] && Readable(r) && RootImported(r)
    requires part.journals == map[tx := Journal(ImportRoot, tx, r.id, r.did, [ref])]
    requires part
      == d.(journals := part.journals, secrets := d.secrets + {ref}, records := d.records[r.id := r],
            registry := part.registry)
    requires part.registry == Listed(d.registry, r)
          || (&& part.registry == d.registry
              && (r.did in d.registry.identities ==> d.registry.identities[r.did] != r.Summary()))
    ensures Recover(part).ok && Recovered(part) == After(d, Import(tx, ref, r))
  {
    ImportEnds(d, tx, ref, r, part);
    RecoversTo(part, tx, After(d, Import(tx, ref, r)));
  }

  // Creating or enrolling an identity

  function Founding(tx: Id, r: Record, refs: seq<SecretRef>): map<Id, Journal> {
    map[tx := Journal(CreateIdentity, tx, r.id, r.did, refs)]
  }

  /** The disk while the creation journal is there and every secret is sealed. */
  function Sown(d: Disk, tx: Id, r: Record, refs: seq<SecretRef>, stored: Record, registry: Registry): Disk {
    d.(journals := Founding(tx, r, refs), secrets := d.secrets + RefSet(refs),
       records := d.records[r.id := stored], registry := registry)
  }

  lemma FoundShape(d: Disk, tx: Id, r: Record, refs: seq<SecretRef>, k: nat) returns (part: Disk)
    requires d.journals == map[] && refs == RefList(r.id, r.keys) && k <= |refs| + 1 + |FoundTail(d, tx, r)|
    ensures |ChangeWrites(d, Found(tx, r))| == |refs| + 1 + |FoundTail(d, tx, r)|
    ensures part == ApplyAll(d, ChangeWrites(d, Found(tx, r))[..k])
    ensures k == 0 ==> part == d
    ensures 1 <= k <= |refs| + 1 ==>
      part == d.(journals := Founding(tx, r, refs),
                 secrets := part.secrets) && d.secrets <= part.secrets <= d.secrets + RefSet(refs)
    ensures k == |refs| + 2 ==> part == Sown(d, tx, r, refs, FirstForm(r), d.registry)
    ensures k == |refs| + 3 ==> part == Sown(d, tx, r, refs, FirstForm(r), Listed(d.registry, r))
    ensures |refs| + 3 < k < |refs| + 1 + |FoundTail(d, tx, r)| ==>
      part == Sown(d, tx, r, refs, r, Listed(d.registry, r))
    ensures k == |refs| + 1 + |FoundTail(d, tx, r)| ==>
      part == Sown(d, tx, r, refs, r, Listed(d.registry, r)).(journals := map[])
  {
    var first, tail := PutJournal(Journal(CreateIdentity, tx, r.id, r.did, refs)), FoundTail(d, tx, r);
    var ws := [first] + (Seals(refs) + tail);
    assert ws == ChangeWrites(d, Found(tx, r));
    if k == 0 {
      assert ws[..0] == [];
      part := d;
    } else {
      AfterOne(d, first, Seals(refs) + tail, k);
      part := PrefixOfSealsThen(Apply(d, first), refs, tail, k - 1);
      if k - 1 > |refs| {
        FoundTailShape(d, tx, r, refs, k - 1 - |refs|, part);
      }
    }
  }

  lemma FoundTailShape(d: Disk, tx: Id, r: Record, refs: seq<SecretRef>, k: nat, part: Disk)
    requires d.journals == map[] && 1 <= k <= |FoundTail(d, tx, r)|
    requires part == ApplyAll(d.(journals := Founding(tx, r, refs), secrets := d.secrets + RefSet(refs)),
                              FoundTail(d, tx, r)[..k])
    ensures k == 1 ==> part == Sown(d, tx, r, refs, FirstForm(r), d.registry)
    ensures k == 2 ==> part == Sown(d, tx, r, refs, FirstForm(r), Listed(d.registry, r))
    ensures 2 < k < |FoundTail(d, tx, r)| ==> part == Sown(d, tx, r, refs, r, Listed(d.registry, r))
    ensures k == |FoundTail(d, tx, r)| ==> part == Sown(d, tx, r, refs, r, Listed(d.registry, r)).(journals := map[])
  {
    var filled := d.(journals := Founding(tx, r, refs), secrets := d.secrets + RefSet(refs));
    var tail := FoundTail(d, tx, r);
    assert d.records[r.id := FirstForm(r)][r.id := r] == d.records[r.id := r];
    assert map[tx := Founding(tx, r, refs)[tx]] - {tx} == map[];
    if k == 1 {
      NextWrite(filled, tail, 0);
    } else {
      var listed := FoundListed(d, tx, r, refs);
      if k > 2 {
        NextWrite(filled, tail, 2);
        if k == 4 {
          NextWrite(filled, tail, 3);
        }
      }
    }
  }

  lemma FoundListed(d: Disk, tx: Id, r: Record, refs: seq<SecretRef>) returns (listed: Disk)
    ensures listed
      == ApplyAll(d.(journals := Founding(tx, r, refs), secrets := d.secrets + RefSet(refs)), FoundTail(d, tx, r)[..2])
    ensures listed == Sown(d, tx, r, refs, FirstForm(r), Listed(d.registry, r))
  {
    var filled := d.(journals := Founding(tx, r, refs), secrets := d.secrets + RefSet(refs));
    NextWrite(filled, FoundTail(d, tx, r), 0);
    NextWrite(filled, FoundTail(d, tx, r), 1);
    listed := Sown(d, tx, r, refs, FirstForm(r), Listed(d.registry, r));
  }

  lemma FoundAtomic(d: Disk, c: Change, k: nat)
    requires Consistent(d) && c.Found? && Admissible(d, c) && k <= |ChangeWrites(d, c)|
    ensures Atomic(d, c, k)
  {
    var refs := RefList(c.record.id, c.record.keys);
    var part := FoundShape(d, c.tx, c.record, refs, k);
    if k == 0 || k == |ChangeWrites(d, c)| {
      assert k > 0 ==> part == After(d, c);
      RecoverNothing(part);
    } else if k <= |refs| + 2 {
      NewSecrets(d, c.record);
      FoundRollsBack(d, c.tx, c.record, refs, part);
    } else {
      FoundRollsForward(d, c.tx, c.record, refs, part.records[c.record.id]);
    }
  }

  /** A fresh identity has no sealed secret yet. */
  lemma NewSecrets(d: Disk, r: Record)
    requires SecretsConserved(d) && r.id !in d.records
    ensures KeyRefs(r.id, r.keys) !! d.secrets
  {
  }

  /** Until the registry lists the new identity, recovery removes every trace of it. */
  lemma FoundRollsBack(d: Disk, tx: Id, r: Record, refs: seq<SecretRef>, part: Disk)
    requires d.journals == map[] && d.updates == map[]
    requires r.id !in d.records && r.did !in d.registry.identities && RefSet(refs) !! d.secrets
    requires part == d.(journals := Founding(tx, r, refs), secrets := part.secrets, records := part.records)
    requires d.secrets <= part.secrets <= d.secrets + RefSet(refs)
    requires part.records == d.records || part.records == d.records[r.id := FirstForm(r)]
    ensures Recover(part).ok && Recovered(part) == d
  {
    assert part.records - {r.id} == d.records && part.secrets - RefSet(refs) == d.secrets;
    assert part.journals - {tx} == map[];
    DiscardEffect(part, tx);
    RecoversTo(part, tx, d);
  }

  lemma FoundRollsForward(d: Disk, tx: Id, r: Record, refs: seq<SecretRef>, stored: Record)
    requires d.journals == map[] && d.updates == map[]
    requires Readable(r) && (r.state == Active || r.state == Enrolling)
    requires stored == FirstForm(r) || stored == r
    ensures var part := Sown(d, tx, r, refs, stored, Listed(d.registry, r));
      Recover(part).ok && Recovered(part) == Sown(d, tx, r, refs, r, Listed(d.registry, r)).(journals := map[])
  {
    var part := Sown(d, tx, r, refs, stored, Listed(d.registry, r));
    FoundEnds(d, tx, r, refs, stored);
    RecoversTo(part, tx, Sown(d, tx, r, refs, r, Listed(d.registry, r)).(journals := map[]));
  }

  lemma FoundEnds(d: Disk, tx: Id, r: Record, refs: seq<SecretRef>, stored: Record)
    requires d.journals == map[] && Readable(r) && (r.state == Active || r.state == Enrolling)
    requires stored == FirstForm(r) || stored == r
    ensures EndsAt(Sown(d, tx, r, refs, stored, Listed(d.registry, r)), tx,
                   Sown(d, tx, r, refs, r, Listed(d.registry, r)).(journals := map[]))
  {
    var part := Sown(d, tx, r, refs, stored, Listed(d.registry, r));
    assert part.journals - {tx} == map[] && d.records[r.id := stored][r.id := r] == d.records[r.id := r];
    ActivateEffect(part, tx);
  }

  // Deleting a namespace

  function Deleting(d: Disk, tx: Id, id: Id): map<Id, Journal>
    requires id in d.records
  {
    map[tx := Journal(DeleteNamespace, tx, id, d.records[id].did, RefList(id, d.records[id].keys))]
  }

  lemma DeleteShape(d: Disk, tx: Id, id: Id, k: nat) returns (part: Disk)
    requires d.journals == map[] && id in d.records && k <= |ChangeWrites(d, Delete(tx, id))|
    ensures part == ApplyAll(d, ChangeWrites(d, Delete(tx, id))[..k])
    ensures k == |ChangeWrites(d, Delete(tx, id))| ==> part == After(d, Delete(tx, id))
    ensures
      || part == d
      || part == After(d, Delete(tx, id))
      || (&& part.journals == Deleting(d, tx, id)
          && part.updates == d.updates && part.transitions == d.transitions
          && part.secrets - KeyRefs(id, d.records[id].keys) == d.secrets - KeyRefs(id, d.records[id].keys)
          && (part.records == d.records || part.records == d.records - {id})
          && (part.registry == d.registry || part.registry == After(d, Delete(tx, id)).registry))
  {
    var ws := ChangeWrites(d, Delete(tx, id));
    if k == 0 {
      assert ws[..0] == [];
      part := d;
    } else {
      part := ApplyAll(d, ws[..k]);
      DeletePrefix(d, tx, id, RefList(id, d.records[id].keys),
                   Registry(d.registry.generation + 1, d.registry.identities - {d.records[id].did}), k, part);
    }
  }

  lemma DeletePrefix(d: Disk, tx: Id, id: Id, refs: seq<SecretRef>, registry: Registry, k: nat, part: Disk)
    requires d.journals == map[] && id in d.records && 1 <= k <= |refs| + 4
    requires var tail := [DropRecord(id), PutRegistry(registry), DropJournal(tx)];
      var first := PutJournal(Journal(DeleteNamespace, tx, id, d.records[id].did, refs));
      part == ApplyAll(d, ([first] + (DropSecrets(refs) + tail))[..k])
    ensures part.updates == d.updates && part.transitions == d.transitions
    ensures part.secrets - RefSet(refs) == d.secrets - RefSet(refs)
    ensures part.records == d.records || part.records == d.records - {id}
    ensures part.registry == d.registry || part.registry == registry
    ensures k < |refs| + 4 ==> part.journals == map[tx := Journal(DeleteNamespace, tx, id, d.records[id].did, refs)]
    ensures k == |refs| + 4 ==>
      part == d.(records := d.records - {id}, secrets := d.secrets - RefSet(refs), registry := registry)
  {
    var tail := [DropRecord(id), PutRegistry(registry), DropJournal(tx)];
    var first := PutJournal(Journal(DeleteNamespace, tx, id, d.records[id].did, refs));
    var begun := Apply(d, first);
    AfterOne(d, first, DropSecrets(refs) + tail, k);
    var rest := PrefixOfDropsThen(begun, refs, tail, k - 1);
    if k - 1 <= |refs| {
      assert Dropping(rest, refs).secrets == Dropping(begun, refs).secrets;
    } else {
      DeleteTailShape(Dropping(begun, refs), tx, id, registry, k - 1 - |refs|);
    }
  }

  lemma DeleteTailShape(d: Disk, tx: Id, id: Id, registry: Registry, k: nat)
    requires 1 <= k <= 3
    ensures var tail := [DropRecord(id), PutRegistry(registry), DropJournal(tx)];
      ApplyAll(d, tail[..k]) == d.(
        records := d.records - {id},
        registry := if k >= 2 then registry else d.registry,
        journals := if k >= 3 then d.journals - {tx} else d.journals)
  {
    var tail := [DropRecord(id), PutRegistry(registry), DropJournal(tx)];
    assert tail[..1] == [tail[0]] && tail[..2] == [tail[0], tail[1]] && tail[..3] == [tail[0], tail[1], tail[2]];
    ApplyOne(d, tail[0]);
    ApplyTwo(d, tail[0], tail[1]);
    ApplyThree(d, tail[0], tail[1], tail[2]);
  }

  lemma DeleteAtomic(d: Disk, c: Change, k: nat)
    requires Consistent(d) && c.Delete? && Admissible(d, c) && k <= |ChangeWrites(d, c)|
    ensures Atomic(d, c, k)
  {
    var part := DeleteShape(d, c.tx, c.identity, k);
    if part == d || part == After(d, c) {
      RecoverNothing(part);
    } else {
      assert d.records[c.identity].id == c.identity;
      DeleteRollsForward(d, c.tx, c.identity, part);
    }
  }

  lemma DeleteRollsForward(d: Disk, tx: Id, id: Id, part: Disk)
    requires d.journals == map[] && d.updates == map[] && id in d.records
    requires Registered(d, d.records[id].did, id)
    requires part.journals == Deleting(d, tx, id)
    requires part.updates == map[] && part.transitions == d.transitions
    requires part.secrets - KeyRefs(id, d.records[id].keys) == d.secrets - KeyRefs(id, d.records[id].keys)
    requires part.records == d.records || part.records == d.records - {id}
    requires part.registry == d.registry || part.registry == After(d, Delete(tx, id)).registry
    ensures Recover(part).ok && Recovered(part) == After(d, Delete(tx, id))
  {
    assert part.records - {id} == d.records - {id} && part.journals - {tx} == map[];
    DeleteEffect(part, tx);
    RecoversTo(part, tx, After(d, Delete(tx, id)));
  }

  /** Crash atomicity of every change, for every prefix of its writes. */
  lemma CrashAtomic(d: Disk, c: Change, k: nat)
    requires Consistent(d) && Admissible(d, c) && k <= |ChangeWrites(d, c)|
    ensures Atomic(d, c, k)
  {
    match c
    case Persist(_) => PersistAtomic(d, c, k);
    case Prepare(_) => PrepareAtomic(d, c, k);
    case Cleanup(_) => CleanupAtomic(d, c, k);
    case Transit(_, _) => TransitAtomic(d, c, k);
    case Import(_, _, _) => ImportAtomic(d, c, k);
    case Found(_, _) => FoundAtomic(d, c, k);
    case Delete(_, _) => DeleteAtomic(d, c, k);
  }

  // A complete change keeps the store consistent

  /** Every write of a change done, the disk is the closed form. */
  lemma ChangeCompletes(d: Disk, c: Change)
    requires d.journals == map[] && d.updates == map[] && Admissible(d, c)
    ensures ApplyAll(d, ChangeWrites(d, c)) == After(d, c)
  {
    var ws := ChangeWrites(d, c);
    assert ws[..|ws|] == ws;
    match c
    case Persist(_) => ApplyOne(d, ws[0]);
    case Prepare(r) =>
      var p := r.pending.value;
      var _ := PrepareShape(d, r, p, |p.refs| + 3);
    case Cleanup(r) =>
      var p := d.records[r.id].pending.value;
      var _ := CleanupShape(d, r, p, |p.refs| + 3);
    case Transit(tx, r) =>
      TransitShape(d, tx, r, 4);
      assert ws[..4] == ws && d.journals - {tx} == map[];
    case Import(tx, ref, r) =>
      ImportShape(d, tx, ref, r, 5);
      assert ws[..5] == ws && d.journals - {tx} == map[];
    case Found(tx, r) => var _ := FoundShape(d, tx, r, RefList(r.id, r.keys), |ws|);
    case Delete(tx, id) => var _ := DeleteShape(d, tx, id, |ws|);
  }

  lemma ListedMatches(d: Disk, r: Record, generation: nat)
    requires RegistryMatches(d)
    requires if r.id in d.records then r.did == d.records[r.id].did else r.did !in d.registry.identities
    ensures RegistryMatches(d.(records := d.records[r.id := r],
                               registry := Registry(generation, d.registry.identities[r.did := r.Summary()])))
  {
  }

  lemma UnlistedMatches(d: Disk, id: Id, generation: nat)
    requires RegistryMatches(d) && id in d.records
    ensures RegistryMatches(d.(records := d.records - {id},
                               registry := Registry(generation, d.registry.identities - {d.records[id].did})))
  {
  }

  lemma AfterMatches(d: Disk, c: Change)
    requires RegistryMatches(d) && Admissible(d, c)
    ensures RegistryMatches(After(d, c))
    ensures c.Transit? ==> RegistryMatches(Quiet(d, After(d, c)))
  {
    var after := After(d, c);
    if c.Delete? {
      UnlistedMatches(d, c.identity, d.registry.generation + 1);
    } else {
      ListedMatches(d, c.record, after.registry.generation);
      ListedMatches(d, c.record, d.registry.generation);
      if c.Persist? || c.Prepare? || c.Cleanup? {
        assert d.registry.identities[c.record.did := c.record.Summary()] == d.registry.identities;
      }
    }
  }

  lemma AfterConserves(d: Disk, c: Change)
    requires Consistent(d) && Admissible(d, c)
    ensures SecretsConserved(After(d, c))
  {
    var after := After(d, c);
    forall ref
      ensures ref in after.secrets <==> ref.identity in after.records && ref in Owed(after.records[ref.identity])
    {
      if c.Cleanup? {
        assert WellKept(d.records[c.record.id]);
      }
    }
  }

  lemma ClearedKept(record: Record)
    requires WellKept(record)
    ensures WellKept(Cleared(record))
  {
  }

  lemma AfterKept(d: Disk, c: Change, id: Id)
    requires forall i :: i in d.records ==> WellKept(d.records[i])
    requires Admissible(d, c) && id in After(d, c).records
    ensures WellKept(After(d, c).records[id])
  {
    if c.Cleanup? {
      ClearedKept(d.records[c.record.id]);
    }
  }

  lemma AfterConsistent(d: Disk, c: Change)
    requires Consistent(d) && Admissible(d, c)
    ensures Consistent(After(d, c))
    ensures c.Transit? ==> Consistent(Quiet(d, After(d, c)))
  {
    AfterMatches(d, c);
    AfterConserves(d, c);
    forall id | id in After(d, c).records
      ensures WellKept(After(d, c).records[id])
    {
      AfterKept(d, c, id);
    }
  }

  /** Whatever `c` was stopped after and however often recovery was interrupted, the final disk is one of two. */
  ghost predicate Settles(d: Disk, c: Change, end: Disk)
    requires Admissible(d, c)
  {
    || end == d
    || end == After(d, c)
    || (c.Transit? && c.record.Summary() == d.records[c.record.id].Summary() && end == Quiet(d, After(d, c)))
  }

  /**
   Crash atomicity with interrupted recovery: stop a change after any prefix of its writes, interrupt
   recovery any number of times after any writes, let it finish. It succeeds, and the store is
   consistent, without journals, and is the store before the change or the store after it; when the
   change leaves the registry entry as it was, the registry generation may not have advanced.
   */
  lemma CrashedChangeSettles(d: Disk, c: Change, k: nat, interruptions: seq<nat>)
    requires Consistent(d) && Admissible(d, c) && k <= |ChangeWrites(d, c)|
    ensures var part := Interrupted(ApplyAll(d, ChangeWrites(d, c)[..k]), interruptions);
      && Recover(part).ok
      && Settles(d, c, Recovered(part))
      && Consistent(Recovered(part))
      && forall did :: did in Recovered(part).registry.identities ==> Opens(Recovered(part), did)
  {
    var part := ApplyAll(d, ChangeWrites(d, c)[..k]);
    CrashAtomic(d, c, k);
    RecoveryConverges(part, interruptions);
    AfterConsistent(d, c);
    var end := Recovered(part);
    forall did | did in end.registry.identities
      ensures Opens(end, did)
    {
      EveryRegisteredDidOpens(end, did);
    }
  }
}
