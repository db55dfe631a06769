/** No operation ever seals a secret that is already there: the key store's `AlreadyExists` answer is unreachable. */
module Sealing {
  import opened Model
  import opened Writes
  import opened CrashAtomicity
  import opened CandidateConsistency
  import opened Engine
  import opened EngineLaws
  import opened Births
  import opened Runs
  import opened RunLaws
  import opened StoreSafety

  /** Whenever a write of the list seals a secret, it is not on the disk at that moment. */
  ghost predicate SealsFresh(d: Disk, ws: seq<Write>) {
    forall i :: 0 <= i < |ws| && ws[i].Seal? ==> ws[i].ref !in ApplyAll(d, ws[..i]).secrets
  }

  ghost predicate DistinctRefs(refs: seq<SecretRef>) {
    forall i, j :: 0 <= i < j < |refs| ==> refs[i] != refs[j]
  }

  predicate NoSeal(ws: seq<Write>) {
    forall i :: 0 <= i < |ws| ==> !ws[i].Seal?
  }

  lemma WriteAt(first: Write, refs: seq<SecretRef>, rest: seq<Write>, i: nat)
    requires i < 1 + |refs| + |rest|
    ensures var ws := [first] + (Seals(refs) + rest);
      ws[i] == if i == 0 then first else if i <= |refs| then Seal(refs[i - 1]) else rest[i - 1 - |refs|]
  {
  }

  /** A write that seals nothing, then seals, then writes that seal nothing. */
  lemma SealsBetween(d: Disk, first: Write, refs: seq<SecretRef>, rest: seq<Write>)
    requires !first.Seal? && NoSeal(rest) && Apply(d, first).secrets == d.secrets
    requires DistinctRefs(refs) && RefSet(refs) !! d.secrets
    ensures SealsFresh(d, [first] + (Seals(refs) + rest))
  {
    var ws := [first] + (Seals(refs) + rest);
    forall i | 0 <= i < |ws| && ws[i].Seal?
      ensures ws[i].ref !in ApplyAll(d, ws[..i]).secrets
    {
      WriteAt(first, refs, rest, i);
      AfterOne(d, first, Seals(refs) + rest, i);
      assert (Seals(refs) + rest)[..i - 1] == Seals(refs)[..i - 1] == Seals(refs[..i - 1]);
      ApplySeals(Apply(d, first), refs[..i - 1]);
    }
  }

  lemma {:induction false} RefListKids(identity: Id, keys: seq<KeyMetadata>)
    requires Distinct(KidList(keys))
    ensures DistinctRefs(RefList(identity, keys))
    ensures forall ref :: ref in RefList(identity, keys) ==> ref.identity == identity && ref.kid in KidList(keys)
  {
    if keys != [] {
      var front, key := keys[..|keys| - 1], keys[|keys| - 1];
      assert KidList(front) == KidList(keys)[..|keys| - 1] && KidList(keys)[|keys| - 1] == key.kid;
      RefListKids(identity, front);
    }
  }

  lemma PrepareSealsFresh(d: Disk, r: Record, p: Revision)
    requires r.pending == Some(p) && |p.refs| <= 1 && RefSet(p.refs) !! d.secrets
    ensures SealsFresh(d, ChangeWrites(d, Prepare(r)))
  {
    var first := PutUpdate(UpdateJournal(PrepareUpdate, p.id, r.id, p.refs));
    SealsBetween(d, first, p.refs, [PutRecord(r), DropUpdate(p.id)]);
  }

  lemma ImportSealsFresh(d: Disk, tx: Id, ref: SecretRef, r: Record)
    requires ref !in d.secrets
    ensures SealsFresh(d, ChangeWrites(d, Import(tx, ref, r)))
  {
    var first := PutJournal(Journal(ImportRoot, tx, r.id, r.did, [ref]));
    var rest := [PutRecord(r), PutRegistry(Listed(d.registry, r)), DropJournal(tx)];
    assert Seals([ref]) == [Seal(ref)];
    SealsBetween(d, first, [ref], rest);
    assert ChangeWrites(d, Import(tx, ref, r)) == [first] + (Seals([ref]) + rest);
  }

  lemma AdmissibleSealsFresh(d: Disk, c: Change)
    requires Admissible(d, c) && !c.Found?
    requires c.Prepare? ==> |c.record.pending.value.refs| <= 1
    ensures SealsFresh(d, ChangeWrites(d, c))
  {
    if c.Prepare? {
      PrepareSealsFresh(d, c.record, c.record.pending.value);
    } else if c.Import? {
      ImportSealsFresh(d, c.tx, c.ref, c.record);
    } else {
      assert NoSeal(ChangeWrites(d, c));
    }
  }

  /** No request seals a secret that exists. */
  lemma RequestsSealFresh(s: Store, h: nat, request: Request, c: Change)
    requires Reachable(s) && h in s.handles && Respond(s.disk, s.handles[h], request) == Make(c)
    ensures Plannable(s.disk, c) && SealsFresh(s.disk, ChangeWrites(s.disk, c))
  {
    ReachableInv(s);
    var mine := s.handles[h];
    MakesOnlyWhenStored(s.disk, mine, request);
    UpToDateHandle(s, h, request);
    RespondLawful(s.disk, mine, request, c);
    if request.Propose? {
      ProposedLaw(mine, request.revision, request.spec, request.setting, c.record);
    } else {
      assert !c.Prepare?;
    }
    AdmissibleSealsFresh(s.disk, c);
  }

  lemma FoundSealsFresh(d: Disk, tx: Id, r: Record)
    requires Distinct(KidList(r.keys)) && SecretsConserved(d) && r.id !in d.records
    ensures SealsFresh(d, ChangeWrites(d, Found(tx, r)))
  {
    RefListKids(r.id, r.keys);
    var refs := RefList(r.id, r.keys);
    forall ref | ref in refs
      ensures ref !in d.secrets
    {
      assert ref.identity == r.id;
    }
    SealsBetween(d, PutJournal(Journal(CreateIdentity, tx, r.id, r.did, refs)), refs, FoundTail(d, tx, r));
  }

  /** Neither does the arrival of a new identity. */
  lemma BirthsSealFresh(s: Store, m: nat, id: Id, birth: Birth, tx: Id)
    requires Reachable(s) && CanBring(s, m, id, birth)
    ensures SealsFresh(s.disk, ChangeWrites(s.disk, Found(tx, Born(id, birth).value)))
  {
    ReachableInv(s);
    BornKept(id, birth);
    BornDistinct(id, birth);
    FoundSealsFresh(s.disk, tx, Born(id, birth).value);
  }
}
