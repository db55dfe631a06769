/**
 Recovery: every leftover journal is rolled forward or back, creation journals first, then update
 journals, each kind in the order of its identifiers. A journal whose identity cannot be read makes
 recovery fail at that point.

 The main result is that recovery converges. However often it is interrupted, and after whichever
 write, running it again to the end leaves the same disk as one uninterrupted run, and fails exactly
 when that one does.
 */
module Recovery {
  import opened Model
  import opened Writes

  // A directory is listed in the order of its identifiers

  ghost function Least(ids: set<Id>): (least: Id)
    requires ids != {}
    ensures least in ids && forall id :: id in ids ==> least <= id
  {
    var id :| id in ids;
    if ids == {id} then id
    else
      var rest := Least(ids - {id});
      assert forall other :: other in ids ==> other == id || other in ids - {id};
      if id <= rest then id else rest
  }

  // The writes of one journal

  /** Make the registry repeat the record, if it does not already. */
  function SyncRegistry(d: Disk, record: Record): seq<Write> {
    if record.did in d.registry.identities && d.registry.identities[record.did] == record.Summary() then []
    else [PutRegistry(Registry(d.registry.generation + 1, d.registry.identities[record.did := record.Summary()]))]
  }

  predicate Registered(d: Disk, did: Did, identity: Id) {
    did in d.registry.identities && d.registry.identities[did].id == identity
  }

  function Unregister(d: Disk, did: Did, identity: Id): seq<Write> {
    if Registered(d, did, identity)
    then [PutRegistry(Registry(d.registry.generation + 1, d.registry.identities - {did}))]
    else []
  }

  predicate RootImported(record: Record) {
    && (record.root == RootPending || record.root == RootActive)
    && exists key :: key in record.keys && key.role == RootControl && Sealed(key)
  }

  predicate CanResume(d: Disk, j: Journal) {
    CanRead(d, j.identity) && d.records[j.identity].did == j.did
  }

  /** What recovery does for a creation journal, or `None` when it gives up on it. */
  function JournalWrites(d: Disk, tx: Id): Option<seq<Write>>
    requires tx in d.journals
  {
    var j := d.journals[tx];
    match j.kind
    case TransitionState =>
      if !CanResume(d, j) then None
      else Some(SyncRegistry(d, d.records[j.identity]) + [DropJournal(tx)])
    case ImportRoot =>
      if !CanResume(d, j) then None
      else if RootImported(d.records[j.identity])
      then Some(SyncRegistry(d, d.records[j.identity]) + [DropJournal(tx)])
      else Some(DropSecrets(j.refs) + [DropJournal(tx)])
    case DeleteNamespace =>
      Some(DropSecrets(j.refs) + ([DropRecord(j.identity)] + Unregister(d, j.did, j.identity) + [DropJournal(tx)]))
    case CreateIdentity =>
      if !Registered(d, j.did, j.identity) then Some(DropSecrets(j.refs) + [DropRecord(j.identity), DropJournal(tx)])
      else if !CanResume(d, j) then None
      else Some(Activate(d.records[j.identity]) + [DropJournal(tx)])
  }

  function Activate(record: Record): seq<Write> {
    if record.state == Creating then [PutRecord(record.(state := Active))] else []
  }

  predicate Awaits(record: Record, revision: Id) {
    record.pending.Some? && record.pending.value.id == revision
  }

  /** The record once its pending revision is cleared and persisted again. */
  function Cleared(record: Record): Record {
    record.(pending := None, generation := record.generation + 1)
  }

  /** What recovery does for an update journal, or `None` when it gives up on it. */
  function UpdateWrites(d: Disk, revision: Id): Option<seq<Write>>
    requires revision in d.updates
  {
    var u := d.updates[revision];
    if !CanRead(d, u.identity) then None
    else
      var record := d.records[u.identity];
      match u.kind
      case PrepareUpdate =>
        Some((if Awaits(record, revision) then [] else DropSecrets(u.refs)) + [DropUpdate(revision)])
      case CleanupUpdate =>
        Some((if Awaits(record, revision) then [PutRecord(Cleared(record))] else [])
             + (DropSecrets(u.refs) + [DropUpdate(revision)]))
  }

  // The whole of recovery

  datatype Trace = Trace(writes: seq<Write>, ok: bool)

  ghost function RecoverJournals(d: Disk, listed: set<Id>): Trace
    decreases listed
  {
    if listed == {} then Trace([], true)
    else
      var next := Least(listed);
      if next !in d.journals then Trace([], false)
      else match JournalWrites(d, next)
        case None => Trace([], false)
        case Some(ws) =>
          var rest := RecoverJournals(ApplyAll(d, ws), listed - {next});
          Trace(ws + rest.writes, rest.ok)
  }

  ghost function RecoverUpdates(d: Disk, listed: set<Id>): Trace
    decreases listed
  {
    if listed == {} then Trace([], true)
    else
      var next := Least(listed);
      if next !in d.updates then Trace([], false)
      else match UpdateWrites(d, next)
        case None => Trace([], false)
        case Some(ws) =>
          var rest := RecoverUpdates(ApplyAll(d, ws), listed - {next});
          Trace(ws + rest.writes, rest.ok)
  }

  ghost function Recover(d: Disk): Trace {
    var first := RecoverJournals(d, d.journals.Keys);
    if !first.ok then first
    else
      var middle := ApplyAll(d, first.writes);
      var second := RecoverUpdates(middle, middle.updates.Keys);
      Trace(first.writes + second.writes, second.ok)
  }

  /** The disk recovery leaves, whether or not it gave up. */
  ghost function Recovered(d: Disk): Disk {
    ApplyAll(d, Recover(d).writes)
  }

  // Closed forms of what one journal does

  function Dropping(d: Disk, refs: seq<SecretRef>): Disk {
    d.(secrets := d.secrets - RefSet(refs))
  }

  lemma ApplyOne(d: Disk, w: Write)
    ensures ApplyAll(d, [w]) == Apply(d, w)
  {
    assert [w][..0] == [];
  }

  lemma ApplyTwo(d: Disk, w: Write, v: Write)
    ensures ApplyAll(d, [w, v]) == Apply(Apply(d, w), v)
  {
    assert [w, v][..1] == [w];
    ApplyOne(d, w);
  }

  lemma ApplyThree(d: Disk, w: Write, v: Write, u: Write)
    ensures ApplyAll(d, [w, v, u]) == Apply(Apply(Apply(d, w), v), u)
  {
    assert [w, v, u][..2] == [w, v];
    ApplyTwo(d, w, v);
  }

  /** Drops followed by `more`, in closed form. */
  lemma ApplyDropsThen(d: Disk, refs: seq<SecretRef>, more: seq<Write>)
    ensures ApplyAll(d, DropSecrets(refs) + more) == ApplyAll(Dropping(d, refs), more)
  {
    ApplyAppend(d, DropSecrets(refs), more);
    ApplyDropSecrets(d, refs);
  }

  /** A prefix of drops followed by `more`: some secrets are gone, or all of them and a prefix of `more` is done. */
  lemma PrefixOfDropsThen(d: Disk, refs: seq<SecretRef>, more: seq<Write>, k: nat) returns (part: Disk)
    requires k <= |refs| + |more|
    ensures part == ApplyAll(d, (DropSecrets(refs) + more)[..k])
    ensures k <= |refs| ==> part == d.(secrets := part.secrets) && Dropping(part, refs) == Dropping(d, refs)
    ensures k > |refs| ==> part == ApplyAll(Dropping(d, refs), more[..k - |refs|])
  {
    part := ApplyAll(d, (DropSecrets(refs) + more)[..k]);
    PrefixSplit(d, DropSecrets(refs), more, k);
    ApplyDropSecrets(d, refs);
    if k <= |refs| {
      ApplyDropPrefix(d, refs, k);
    }
  }

  // One journal can be restarted after any of its writes but the last

  ghost predicate JournalRestarts(d: Disk, part: Disk, tx: Id)
    requires tx in d.journals
  {
    && part.journals == d.journals
    && part.updates == d.updates
    && JournalWrites(d, tx).Some?
    && JournalWrites(part, tx).Some?
    && ApplyAll(part, JournalWrites(part, tx).value) == ApplyAll(d, JournalWrites(d, tx).value)
  }

  predicate Syncs(d: Disk, tx: Id) {
    && tx in d.journals
    && CanResume(d, d.journals[tx])
    && (|| d.journals[tx].kind == TransitionState
        || (d.journals[tx].kind == ImportRoot && RootImported(d.records[d.journals[tx].identity])))
  }

  function Synced(d: Disk, record: Record): Registry {
    if SyncRegistry(d, record) == [] then d.registry
    else Registry(d.registry.generation + 1, d.registry.identities[record.did := record.Summary()])
  }

  lemma SyncEffect(d: Disk, tx: Id)
    requires Syncs(d, tx)
    ensures JournalWrites(d, tx).Some?
    ensures ApplyAll(d, JournalWrites(d, tx).value)
         == d.(registry := Synced(d, d.records[d.journals[tx].identity]), journals := d.journals - {tx})
  {
    var record := d.records[d.journals[tx].identity];
    var sync := SyncRegistry(d, record);
    assert JournalWrites(d, tx) == Some(sync + [DropJournal(tx)]);
    ApplySync(d, record, tx);
  }

  lemma ApplySync(d: Disk, record: Record, tx: Id)
    ensures ApplyAll(d, SyncRegistry(d, record) + [DropJournal(tx)])
      == d.(registry := Synced(d, record), journals := d.journals - {tx})
  {
    var drop := DropJournal(tx);
    if SyncRegistry(d, record) == [] {
      assert [] + [drop] == [drop];
      ApplyOne(d, drop);
    } else {
      var put := PutRegistry(Synced(d, record));
      assert SyncRegistry(d, record) == [put] && [put] + [drop] == [put, drop];
      ApplyTwo(d, put, drop);
    }
  }

  lemma SyncRestarts(d: Disk, tx: Id, k: nat)
    requires Syncs(d, tx) && k < |JournalWrites(d, tx).value|
    ensures JournalRestarts(d, ApplyAll(d, JournalWrites(d, tx).value[..k]), tx)
  {
    var ws := JournalWrites(d, tx).value;
    if k == 1 {
      assert ws[..1] == [ws[0]];
      ApplyOne(d, ws[0]);
      SyncEffect(d, tx);
      SyncEffect(Apply(d, ws[0]), tx);
    } else {
      assert ws[..0] == [];
    }
  }

  lemma RollBackImportRestarts(d: Disk, tx: Id, k: nat)
    requires tx in d.journals && d.journals[tx].kind == ImportRoot && CanResume(d, d.journals[tx])
    requires !RootImported(d.records[d.journals[tx].identity])
    requires k < |JournalWrites(d, tx).value|
    ensures JournalRestarts(d, ApplyAll(d, JournalWrites(d, tx).value[..k]), tx)
  {
    var refs := d.journals[tx].refs;
    var part := PrefixOfDropsThen(d, refs, [DropJournal(tx)], k);
    ApplyDropsThen(d, refs, [DropJournal(tx)]);
    ApplyDropsThen(part, refs, [DropJournal(tx)]);
  }

  function Deleted(d: Disk, j: Journal, tx: Id): Disk {
    d.(secrets := d.secrets - RefSet(j.refs), records := d.records - {j.identity}, journals := d.journals - {tx},
       registry := if Registered(d, j.did, j.identity)
                   then Registry(d.registry.generation + 1, d.registry.identities - {j.did}) else d.registry)
  }

  lemma DeleteEffect(d: Disk, tx: Id)
    requires tx in d.journals && d.journals[tx].kind == DeleteNamespace
    ensures ApplyAll(d, JournalWrites(d, tx).value) == Deleted(d, d.journals[tx], tx)
  {
    var j := d.journals[tx];
    var gone := Dropping(d, j.refs);
    var unregister := Unregister(d, j.did, j.identity);
    var tail := [DropRecord(j.identity)] + unregister + [DropJournal(tx)];
    ApplyDropsThen(d, j.refs, tail);
    if unregister == [] {
      assert tail == [DropRecord(j.identity), DropJournal(tx)];
      ApplyTwo(gone, DropRecord(j.identity), DropJournal(tx));
    } else {
      assert tail == [DropRecord(j.identity), unregister[0], DropJournal(tx)];
      ApplyThree(gone, DropRecord(j.identity), unregister[0], DropJournal(tx));
    }
  }

  lemma DeletePart(d: Disk, tx: Id, k: nat) returns (part: Disk)
    requires tx in d.journals && d.journals[tx].kind == DeleteNamespace
    requires k < |JournalWrites(d, tx).value|
    ensures part == ApplyAll(d, JournalWrites(d, tx).value[..k])
    ensures part.journals == d.journals && part.updates == d.updates
    ensures Deleted(part, d.journals[tx], tx) == Deleted(d, d.journals[tx], tx)
  {
    var j := d.journals[tx];
    var gone := Dropping(d, j.refs);
    var unregister := Unregister(d, j.did, j.identity);
    var tail := [DropRecord(j.identity)] + unregister + [DropJournal(tx)];
    part := PrefixOfDropsThen(d, j.refs, tail, k);
    if k > |j.refs| {
      assert |j.refs| < k <= |j.refs| + 2;
      if k == |j.refs| + 1 {
        assert tail[..1] == [DropRecord(j.identity)];
        ApplyOne(gone, DropRecord(j.identity));
      } else {
        assert tail[..2] == [DropRecord(j.identity), unregister[0]];
        ApplyTwo(gone, DropRecord(j.identity), unregister[0]);
      }
    }
  }

  lemma DeleteRestarts(d: Disk, tx: Id, k: nat)
    requires tx in d.journals && d.journals[tx].kind == DeleteNamespace
    requires k < |JournalWrites(d, tx).value|
    ensures JournalRestarts(d, ApplyAll(d, JournalWrites(d, tx).value[..k]), tx)
  {
    var part := DeletePart(d, tx, k);
    DeleteEffect(d, tx);
    DeleteEffect(part, tx);
  }

  function Discarded(d: Disk, j: Journal, tx: Id): Disk {
    d.(secrets := d.secrets - RefSet(j.refs), records := d.records - {j.identity}, journals := d.journals - {tx})
  }

  lemma DiscardEffect(d: Disk, tx: Id)
    requires tx in d.journals && d.journals[tx].kind == CreateIdentity
    requires !Registered(d, d.journals[tx].did, d.journals[tx].identity)
    ensures ApplyAll(d, JournalWrites(d, tx).value) == Discarded(d, d.journals[tx], tx)
  {
    var j := d.journals[tx];
    ApplyDropsThen(d, j.refs, [DropRecord(j.identity), DropJournal(tx)]);
    ApplyTwo(Dropping(d, j.refs), DropRecord(j.identity), DropJournal(tx));
  }

  lemma DiscardPart(d: Disk, tx: Id, k: nat) returns (part: Disk)
    requires tx in d.journals && d.journals[tx].kind == CreateIdentity
    requires !Registered(d, d.journals[tx].did, d.journals[tx].identity)
    requires k < |JournalWrites(d, tx).value|
    ensures part == ApplyAll(d, JournalWrites(d, tx).value[..k])
    ensures part == d.(secrets := part.secrets, records := part.records)
    ensures Discarded(part, d.journals[tx], tx) == Discarded(d, d.journals[tx], tx)
  {
    var j := d.journals[tx];
    var tail := [DropRecord(j.identity), DropJournal(tx)];
    part := PrefixOfDropsThen(d, j.refs, tail, k);
    if k > |j.refs| {
      assert tail[..1] == [DropRecord(j.identity)];
      ApplyOne(Dropping(d, j.refs), DropRecord(j.identity));
    }
  }

  lemma DiscardRestarts(d: Disk, tx: Id, k: nat)
    requires tx in d.journals && d.journals[tx].kind == CreateIdentity
    requires !Registered(d, d.journals[tx].did, d.journals[tx].identity)
    requires k < |JournalWrites(d, tx).value|
    ensures JournalRestarts(d, ApplyAll(d, JournalWrites(d, tx).value[..k]), tx)
  {
    var part := DiscardPart(d, tx, k);
    DiscardEffect(d, tx);
    DiscardEffect(part, tx);
  }

  lemma ActivateEffect(d: Disk, tx: Id)
    requires tx in d.journals && d.journals[tx].kind == CreateIdentity
    requires Registered(d, d.journals[tx].did, d.journals[tx].identity) && CanResume(d, d.journals[tx])
    ensures var record := d.records[d.journals[tx].identity];
      ApplyAll(d, JournalWrites(d, tx).value)
      == d.(journals := d.journals - {tx},
            records := if record.state == Creating then d.records[record.id := record.(state := Active)] else d.records)
  {
    var ws := JournalWrites(d, tx).value;
    if |ws| == 1 {
      assert ws == [DropJournal(tx)];
      ApplyOne(d, ws[0]);
    } else {
      assert ws == [ws[0], DropJournal(tx)];
      ApplyTwo(d, ws[0], ws[1]);
    }
  }

  lemma ActivateRestarts(d: Disk, tx: Id, k: nat)
    requires tx in d.journals && d.journals[tx].kind == CreateIdentity
    requires Registered(d, d.journals[tx].did, d.journals[tx].identity) && CanResume(d, d.journals[tx])
    requires k < |JournalWrites(d, tx).value|
    ensures JournalRestarts(d, ApplyAll(d, JournalWrites(d, tx).value[..k]), tx)
  {
    var ws := JournalWrites(d, tx).value;
    if k == 1 {
      assert ws[..1] == [ws[0]];
      ApplyOne(d, ws[0]);
      ActivateEffect(d, tx);
      ActivateEffect(Apply(d, ws[0]), tx);
    } else {
      assert ws[..0] == [];
    }
  }

  lemma JournalRestart(d: Disk, tx: Id, k: nat)
    requires tx in d.journals && JournalWrites(d, tx).Some? && k < |JournalWrites(d, tx).value|
    ensures JournalRestarts(d, ApplyAll(d, JournalWrites(d, tx).value[..k]), tx)
  {
    match d.journals[tx].kind
    case TransitionState => SyncRestarts(d, tx, k);
    case ImportRoot =>
      if RootImported(d.records[d.journals[tx].identity]) {
        SyncRestarts(d, tx, k);
      } else {
        RollBackImportRestarts(d, tx, k);
      }
    case DeleteNamespace => DeleteRestarts(d, tx, k);
    case CreateIdentity =>
      if Registered(d, d.journals[tx].did, d.journals[tx].identity) {
        ActivateRestarts(d, tx, k);
      } else {
        DiscardRestarts(d, tx, k);
      }
  }

  /** A journal that is dealt with is gone, and the other journals are untouched. */
  lemma JournalDone(d: Disk, tx: Id, ws: seq<Write>)
    requires tx in d.journals && JournalWrites(d, tx) == Some(ws)
    ensures ApplyAll(d, ws).journals == d.journals - {tx}
    ensures ApplyAll(d, ws).updates == d.updates
  {
    var j := d.journals[tx];
    if Syncs(d, tx) {
      SyncEffect(d, tx);
    } else if j.kind == DeleteNamespace {
      DeleteEffect(d, tx);
    } else if j.kind == ImportRoot {
      ApplyDropsThen(d, j.refs, [DropJournal(tx)]);
      ApplyOne(Dropping(d, j.refs), DropJournal(tx));
    } else if Registered(d, j.did, j.identity) {
      ActivateEffect(d, tx);
    } else {
      DiscardEffect(d, tx);
    }
  }

  // The same for update journals

  ghost predicate UpdateRestarts(d: Disk, part: Disk, revision: Id)
    requires revision in d.updates
  {
    && part.journals == d.journals
    && part.updates == d.updates
    && UpdateWrites(d, revision).Some?
    && UpdateWrites(part, revision).Some?
    && ApplyAll(part, UpdateWrites(part, revision).value) == ApplyAll(d, UpdateWrites(d, revision).value)
  }

  /** What an update journal leaves: a prepared revision is kept or its secrets go, a cleaned-up one goes entirely. */
  function Updated(d: Disk, revision: Id): Disk
    requires revision in d.updates && CanRead(d, d.updates[revision].identity)
  {
    var u := d.updates[revision];
    var record := d.records[u.identity];
    d.(updates := d.updates - {revision},
       secrets := if u.kind == PrepareUpdate && Awaits(record, revision) then d.secrets else d.secrets - RefSet(u.refs),
       records := if u.kind == CleanupUpdate && Awaits(record, revision) then d.records[record.id := Cleared(record)]
                  else d.records)
  }

  lemma UpdateEffect(d: Disk, revision: Id)
    requires revision in d.updates && UpdateWrites(d, revision).Some?
    ensures ApplyAll(d, UpdateWrites(d, revision).value) == Updated(d, revision)
    ensures |UpdateWrites(d, revision).value| > 0
  {
    var u := d.updates[revision];
    var record := d.records[u.identity];
    var drop := [DropUpdate(revision)];
    if u.kind == PrepareUpdate && Awaits(record, revision) {
      assert [] + drop == drop;
      ApplyOne(d, DropUpdate(revision));
    } else if u.kind == CleanupUpdate && Awaits(record, revision) {
      var first := Apply(d, PutRecord(Cleared(record)));
      ApplyAppend(d, [PutRecord(Cleared(record))], DropSecrets(u.refs) + drop);
      ApplyOne(d, PutRecord(Cleared(record)));
      ApplyDropsThen(first, u.refs, drop);
      ApplyOne(Dropping(first, u.refs), DropUpdate(revision));
    } else {
      assert [] + (DropSecrets(u.refs) + drop) == DropSecrets(u.refs) + drop;
      ApplyDropsThen(d, u.refs, drop);
      ApplyOne(Dropping(d, u.refs), DropUpdate(revision));
    }
  }

  /** Interrupting one update journal leaves a disk on which it would have the same effect. */
  lemma UpdatePart(d: Disk, revision: Id, k: nat) returns (part: Disk)
    requires revision in d.updates && UpdateWrites(d, revision).Some? && k < |UpdateWrites(d, revision).value|
    ensures part == ApplyAll(d, UpdateWrites(d, revision).value[..k])
    ensures part == d.(secrets := part.secrets, records := part.records)
    ensures CanRead(part, d.updates[revision].identity)
    ensures Updated(part, revision) == Updated(d, revision)
  {
    var u := d.updates[revision];
    var record := d.records[u.identity];
    var drop := [DropUpdate(revision)];
    var ws := UpdateWrites(d, revision).value;
    part := ApplyAll(d, ws[..k]);
    if k == 0 {
      assert ws[..0] == [];
    } else if u.kind == CleanupUpdate && Awaits(record, revision) {
      var first := Apply(d, PutRecord(Cleared(record)));
      PrefixSplit(d, [PutRecord(Cleared(record))], DropSecrets(u.refs) + drop, k);
      ApplyOne(d, PutRecord(Cleared(record)));
      assert [PutRecord(Cleared(record))][..1] == [PutRecord(Cleared(record))];
      if k > 1 {
        var rest := PrefixOfDropsThen(first, u.refs, drop, k - 1);
      }
    } else {
      assert ws == DropSecrets(u.refs) + drop;
      var rest := PrefixOfDropsThen(d, u.refs, drop, k);
    }
  }

  lemma UpdateRestart(d: Disk, revision: Id, k: nat)
    requires revision in d.updates && UpdateWrites(d, revision).Some? && k < |UpdateWrites(d, revision).value|
    ensures UpdateRestarts(d, ApplyAll(d, UpdateWrites(d, revision).value[..k]), revision)
  {
    var part := UpdatePart(d, revision, k);
    UpdateEffect(d, revision);
    UpdateEffect(part, revision);
  }

  // Convergence

  lemma JournalsUnfold(d: Disk, listed: set<Id>, ws: seq<Write>)
    requires listed != {} && Least(listed) in d.journals && JournalWrites(d, Least(listed)) == Some(ws)
    ensures var rest := RecoverJournals(ApplyAll(d, ws), listed - {Least(listed)});
      && RecoverJournals(d, listed) == Trace(ws + rest.writes, rest.ok)
      && ApplyAll(d, ws + rest.writes) == ApplyAll(ApplyAll(d, ws), rest.writes)
  {
    ApplyAppend(d, ws, RecoverJournals(ApplyAll(d, ws), listed - {Least(listed)}).writes);
  }

  /** Interrupted within the first journal of the list. */
  lemma JournalsRestart(d: Disk, listed: set<Id>, k: nat, ws: seq<Write>, part: Disk)
    requires listed == d.journals.Keys && listed != {} && JournalWrites(d, Least(listed)) == Some(ws)
    requires k < |ws| && part == ApplyAll(d, ws[..k])
    ensures ApplyAll(part, RecoverJournals(part, part.journals.Keys).writes)
      == ApplyAll(d, RecoverJournals(d, listed).writes)
    ensures RecoverJournals(part, part.journals.Keys).ok == RecoverJournals(d, listed).ok && part.updates == d.updates
  {
    JournalRestart(d, Least(listed), k);
    JournalsUnfold(d, listed, ws);
    JournalsUnfold(part, listed, JournalWrites(part, Least(listed)).value);
  }

  /** Interrupting the creation journals after `k` writes leaves the remaining ones to be listed again. */
  lemma {:induction false} JournalsResume(d: Disk, listed: set<Id>, k: nat, part: Disk)
    requires listed == d.journals.Keys
    requires k <= |RecoverJournals(d, listed).writes| && part == ApplyAll(d, RecoverJournals(d, listed).writes[..k])
    ensures ApplyAll(part, RecoverJournals(part, part.journals.Keys).writes)
      == ApplyAll(d, RecoverJournals(d, listed).writes)
    ensures RecoverJournals(part, part.journals.Keys).ok == RecoverJournals(d, listed).ok && part.updates == d.updates
    decreases listed
  {
    if k == 0 {
      assert RecoverJournals(d, listed).writes[..0] == [];
    } else {
      var ws := JournalWrites(d, Least(listed)).value;
      JournalsUnfold(d, listed, ws);
      PrefixCut(d, ws, RecoverJournals(ApplyAll(d, ws), listed - {Least(listed)}).writes, k, part);
      if k < |ws| {
        JournalsRestart(d, listed, k, ws, part);
      } else {
        JournalDone(d, Least(listed), ws);
        JournalsResume(ApplyAll(d, ws), listed - {Least(listed)}, k - |ws|, part);
      }
    }
  }

  /** When the creation journals are dealt with, none is left. */
  lemma {:induction false} JournalsGone(d: Disk, listed: set<Id>)
    requires listed == d.journals.Keys && RecoverJournals(d, listed).ok
    ensures ApplyAll(d, RecoverJournals(d, listed).writes).journals == map[]
    ensures ApplyAll(d, RecoverJournals(d, listed).writes).updates == d.updates
    decreases listed
  {
    if listed != {} {
      var tx := Least(listed);
      var ws := JournalWrites(d, tx).value;
      JournalDone(d, tx, ws);
      JournalsUnfold(d, listed, ws);
      JournalsGone(ApplyAll(d, ws), listed - {tx});
    }
  }

  lemma {:induction false} UpdatesGone(d: Disk, listed: set<Id>)
    requires listed == d.updates.Keys && RecoverUpdates(d, listed).ok
    ensures ApplyAll(d, RecoverUpdates(d, listed).writes).updates == map[]
    ensures ApplyAll(d, RecoverUpdates(d, listed).writes).journals == d.journals
    decreases listed
  {
    if listed != {} {
      var revision := Least(listed);
      var ws := UpdateWrites(d, revision).value;
      UpdateDone(d, revision, ws);
      UpdatesUnfold(d, listed, ws);
      UpdatesGone(ApplyAll(d, ws), listed - {revision});
    }
  }

  lemma UpdateDone(d: Disk, revision: Id, ws: seq<Write>)
    requires revision in d.updates && UpdateWrites(d, revision) == Some(ws)
    ensures ApplyAll(d, ws).updates.Keys == d.updates.Keys - {revision} && ApplyAll(d, ws).journals == d.journals
  {
    UpdateEffect(d, revision);
  }

  lemma UpdatesUnfold(d: Disk, listed: set<Id>, ws: seq<Write>)
    requires listed != {} && Least(listed) in d.updates && UpdateWrites(d, Least(listed)) == Some(ws)
    ensures var rest := RecoverUpdates(ApplyAll(d, ws), listed - {Least(listed)});
      && RecoverUpdates(d, listed) == Trace(ws + rest.writes, rest.ok)
      && ApplyAll(d, ws + rest.writes) == ApplyAll(ApplyAll(d, ws), rest.writes)
  {
    ApplyAppend(d, ws, RecoverUpdates(ApplyAll(d, ws), listed - {Least(listed)}).writes);
  }

  /** Interrupted within the first journal of the list. */
  lemma UpdatesRestart(d: Disk, listed: set<Id>, k: nat, ws: seq<Write>, part: Disk)
    requires listed == d.updates.Keys && listed != {} && UpdateWrites(d, Least(listed)) == Some(ws)
    requires k < |ws| && part == ApplyAll(d, ws[..k])
    ensures ApplyAll(part, RecoverUpdates(part, part.updates.Keys).writes)
      == ApplyAll(d, RecoverUpdates(d, listed).writes)
    ensures RecoverUpdates(part, part.updates.Keys).ok == RecoverUpdates(d, listed).ok && part.journals == d.journals
  {
    UpdateRestart(d, Least(listed), k);
    UpdatesUnfold(d, listed, ws);
    UpdatesUnfold(part, listed, UpdateWrites(part, Least(listed)).value);
  }

  lemma {:induction false} UpdatesResume(d: Disk, listed: set<Id>, k: nat, part: Disk)
    requires listed == d.updates.Keys
    requires k <= |RecoverUpdates(d, listed).writes| && part == ApplyAll(d, RecoverUpdates(d, listed).writes[..k])
    ensures ApplyAll(part, RecoverUpdates(part, part.updates.Keys).writes)
      == ApplyAll(d, RecoverUpdates(d, listed).writes)
    ensures RecoverUpdates(part, part.updates.Keys).ok == RecoverUpdates(d, listed).ok && part.journals == d.journals
    decreases listed
  {
    if k == 0 {
      assert RecoverUpdates(d, listed).writes[..0] == [];
    } else {
      var ws := UpdateWrites(d, Least(listed)).value;
      UpdatesUnfold(d, listed, ws);
      PrefixCut(d, ws, RecoverUpdates(ApplyAll(d, ws), listed - {Least(listed)}).writes, k, part);
      if k < |ws| {
        UpdatesRestart(d, listed, k, ws, part);
      } else {
        UpdateDone(d, Least(listed), ws);
        UpdatesResume(ApplyAll(d, ws), listed - {Least(listed)}, k - |ws|, part);
      }
    }
  }

  /** Recovery is the creation journals, then the update journals on the disk they leave. */
  lemma RecoverInParts(d: Disk, middle: Disk)
    requires RecoverJournals(d, d.journals.Keys).ok && middle == ApplyAll(d, RecoverJournals(d, d.journals.Keys).writes)
    ensures var second := RecoverUpdates(middle, middle.updates.Keys);
      && Recover(d) == Trace(RecoverJournals(d, d.journals.Keys).writes + second.writes, second.ok)
      && Recovered(d) == ApplyAll(middle, second.writes)
  {
    ApplyAppend(d, RecoverJournals(d, d.journals.Keys).writes, RecoverUpdates(middle, middle.updates.Keys).writes);
  }

  lemma UpdatesOnly(d: Disk)
    requires d.journals == map[]
    ensures var second := RecoverUpdates(d, d.updates.Keys);
      Recover(d).ok == second.ok && Recovered(d) == ApplyAll(d, second.writes)
  {
    assert RecoverJournals(d, d.journals.Keys) == Trace([], true) && ApplyAll(d, []) == d;
    RecoverInParts(d, d);
  }

  lemma ResumesInJournals(d: Disk, k: nat, part: Disk)
    requires k <= |RecoverJournals(d, d.journals.Keys).writes|
    requires part == ApplyAll(d, RecoverJournals(d, d.journals.Keys).writes[..k])
    ensures Recovered(part) == Recovered(d) && Recover(part).ok == Recover(d).ok
  {
    JournalsResume(d, d.journals.Keys, k, part);
    if RecoverJournals(d, d.journals.Keys).ok {
      var middle := ApplyAll(d, RecoverJournals(d, d.journals.Keys).writes);
      RecoverInParts(d, middle);
      RecoverInParts(part, middle);
    }
  }

  lemma ResumesInUpdates(d: Disk, k: nat, middle: Disk, part: Disk)
    requires RecoverJournals(d, d.journals.Keys).ok && middle == ApplyAll(d, RecoverJournals(d, d.journals.Keys).writes)
    requires k <= |RecoverUpdates(middle, middle.updates.Keys).writes|
    requires part == ApplyAll(middle, RecoverUpdates(middle, middle.updates.Keys).writes[..k])
    ensures Recovered(part) == Recovered(d) && Recover(part).ok == Recover(d).ok
  {
    JournalsGone(d, d.journals.Keys);
    UpdatesResume(middle, middle.updates.Keys, k, part);
    RecoverInParts(d, middle);
    UpdatesOnly(part);
  }

  /** Recovery interrupted after any write and run again ends as it would have ended. */
  lemma RecoveryResumes(d: Disk, k: nat)
    requires k <= |Recover(d).writes|
    ensures var part := ApplyAll(d, Recover(d).writes[..k]);
      Recovered(part) == Recovered(d) && Recover(part).ok == Recover(d).ok
  {
    var first := RecoverJournals(d, d.journals.Keys);
    if !first.ok {
      ResumesInJournals(d, k, ApplyAll(d, first.writes[..k]));
    } else {
      var middle := ApplyAll(d, first.writes);
      var second := RecoverUpdates(middle, middle.updates.Keys);
      RecoverInParts(d, middle);
      PrefixSplit(d, first.writes, second.writes, k);
      if k <= |first.writes| {
        ResumesInJournals(d, k, ApplyAll(d, first.writes[..k]));
      } else {
        ResumesInUpdates(d, k - |first.writes|, middle, ApplyAll(middle, second.writes[..k - |first.writes|]));
      }
    }
  }

  /** The disk after a recovery that was interrupted once for every entry of `interruptions`. */
  ghost function Interrupted(d: Disk, interruptions: seq<nat>): Disk
    decreases |interruptions|
  {
    if interruptions == [] then d
    else
      var ws := Recover(d).writes;
      var k := if interruptions[0] <= |ws| then interruptions[0] else |ws|;
      Interrupted(ApplyAll(d, ws[..k]), interruptions[1..])
  }

  /**
   Recovery converges: interrupted any number of times, after any writes, a final run ends on the
   disk, and with the verdict, of one uninterrupted run. Nothing is assumed of the disk.
   */
  lemma {:induction false} RecoveryConverges(d: Disk, interruptions: seq<nat>)
    ensures Recovered(Interrupted(d, interruptions)) == Recovered(d)
    ensures Recover(Interrupted(d, interruptions)).ok == Recover(d).ok
    decreases |interruptions|
  {
    if interruptions != [] {
      var ws := Recover(d).writes;
      var k := if interruptions[0] <= |ws| then interruptions[0] else |ws|;
      RecoveryResumes(d, k);
      RecoveryConverges(ApplyAll(d, ws[..k]), interruptions[1..]);
    }
  }

  /** A recovery that succeeds leaves no journal, so running it again changes nothing. */
  lemma RecoveryLeavesNoJournal(d: Disk)
    requires Recover(d).ok
    ensures Recovered(d).journals == map[] && Recovered(d).updates == map[]
    ensures Recover(Recovered(d)) == Trace([], true)
  {
    var first := RecoverJournals(d, d.journals.Keys);
    var middle := ApplyAll(d, first.writes);
    var second := RecoverUpdates(middle, middle.updates.Keys);
    JournalsGone(d, d.journals.Keys);
    UpdatesGone(middle, middle.updates.Keys);
    ApplyAppend(d, first.writes, second.writes);
    assert ApplyAll(Recovered(d), []) == Recovered(d);
  }
}
