/**
 The store as the program it is: files changed one write at a time, by loops over secrets and
 journals. The process may die before any write; `budget` is the number of writes it has left. Every
 operation is proved to make exactly the writes that `CrashAtomicity` and `Recovery` reason about, up
 to the point where the process dies.
 */
module StoreRuntime {
  import opened Model
  import opened Writes
  import opened Recovery
  import opened CrashAtomicity

  function Reached(budget: nat, plan: seq<Write>): nat {
    if budget < |plan| then budget else |plan|
  }

  /** The writes of the plan were made in order, all of them or as many as the budget allowed. */
  ghost predicate Ran(before: Disk, budget: nat, plan: seq<Write>, after: Disk, left: nat, done: bool) {
    && after == ApplyAll(before, plan[..Reached(budget, plan)])
    && left == budget - Reached(budget, plan)
    && (done <==> |plan| <= budget)
  }

  lemma RanNothing(before: Disk, budget: nat)
    ensures Ran(before, budget, [], before, budget, true)
  {
    var none: seq<Write> := [];
    assert none[..0] == [];
  }

  lemma RanOne(before: Disk, budget: nat, w: Write, after: Disk, left: nat, alive: bool)
    requires alive <==> budget > 0
    requires if alive then after == Apply(before, w) && left == budget - 1 else after == before && left == 0
    ensures Ran(before, budget, [w], after, left, alive)
  {
    assert [w][..0] == [] && [w][..1] == [w];
    ApplyOne(before, w);
  }

  /** Two plans one after the other. */
  lemma RanBoth(d: Disk, b: nat, first: seq<Write>, middle: Disk, left: nat, second: seq<Write>, after: Disk,
                rest: nat, done: bool)
    requires Ran(d, b, first, middle, left, true) && Ran(middle, left, second, after, rest, done)
    ensures Ran(d, b, first + second, after, rest, done)
  {
    var k := Reached(left, second);
    assert first[..|first|] == first && (first + second)[..|first| + k] == first + second[..k];
    ApplyAppend(d, first, second[..k]);
  }

  /** A plan that was cut short stays cut short. */
  lemma RanCut(d: Disk, b: nat, first: seq<Write>, after: Disk, left: nat, second: seq<Write>)
    requires Ran(d, b, first, after, left, false)
    ensures Ran(d, b, first + second, after, left, false)
  {
    assert (first + second)[..b] == first[..b];
  }

  /** A part of a longer plan is done, or the process died in it. */
  lemma RanStep(d: Disk, b: nat, made: seq<Write>, d1: Disk, b1: nat, ws: seq<Write>, rest: seq<Write>, after: Disk,
                left: nat, done: bool)
    requires Ran(d, b, made, d1, b1, true) && Ran(d1, b1, ws, after, left, done)
    ensures done ==> Ran(d, b, made + ws, after, left, true) && after == ApplyAll(d1, ws)
    ensures !done ==> Ran(d, b, made + (ws + rest), after, left, false)
    ensures made + ws + rest == made + (ws + rest)
  {
    RanBoth(d, b, made, d1, b1, ws, after, left, done);
    assert made + (ws + rest) == made + ws + rest && ws[..|ws|] == ws;
    if !done {
      RanCut(d, b, made + ws, after, left, rest);
    }
  }

  lemma JournalsGiveUp(d: Disk, listed: set<Id>)
    requires listed != {} && (Least(listed) !in d.journals || JournalWrites(d, Least(listed)).None?)
    ensures RecoverJournals(d, listed) == Trace([], false)
  {
  }

  lemma UpdatesGiveUp(d: Disk, listed: set<Id>)
    requires listed != {} && (Least(listed) !in d.updates || UpdateWrites(d, Least(listed)).None?)
    ensures RecoverUpdates(d, listed) == Trace([], false)
  {
  }

  class Runtime {
    var registry: Registry
    var records: map<Id, Record>
    var secrets: set<SecretRef>
    var journals: map<Id, Journal>
    var updates: map<Id, UpdateJournal>
    var transitions: map<string, Transition>
    var budget: nat

    function Contents(): Disk
      reads this
    {
      Disk(registry, records, secrets, journals, updates, transitions)
    }

    constructor (disk: Disk, budget: nat)
      ensures Contents() == disk && this.budget == budget
    {
      registry, records, secrets := disk.registry, disk.records, disk.secrets;
      journals, updates, transitions := disk.journals, disk.updates, disk.transitions;
      this.budget := budget;
    }

    // Single writes

    method WriteRegistry(next: Registry) returns (alive: bool)
      modifies this
      ensures Ran(old(Contents()), old(budget), [PutRegistry(next)], Contents(), budget, alive)
    {
      alive := budget > 0;
      if alive {
        registry, budget := next, budget - 1;
      }
      RanOne(old(Contents()), old(budget), PutRegistry(next), Contents(), budget, alive);
    }

    method WriteIdentity(record: Record) returns (alive: bool)
      modifies this
      ensures Ran(old(Contents()), old(budget), [PutRecord(record)], Contents(), budget, alive)
    {
      alive := budget > 0;
      if alive {
        records, budget := records[record.id := record], budget - 1;
      }
      RanOne(old(Contents()), old(budget), PutRecord(record), Contents(), budget, alive);
    }

    method RemoveIdentity(id: Id) returns (alive: bool)
      modifies this
      ensures Ran(old(Contents()), old(budget), [DropRecord(id)], Contents(), budget, alive)
    {
      alive := budget > 0;
      if alive {
        records, budget := records - {id}, budget - 1;
      }
      RanOne(old(Contents()), old(budget), DropRecord(id), Contents(), budget, alive);
    }

    method WriteJournal(journal: Journal) returns (alive: bool)
      modifies this
      ensures Ran(old(Contents()), old(budget), [PutJournal(journal)], Contents(), budget, alive)
    {
      alive := budget > 0;
      if alive {
        journals, budget := journals[journal.transaction := journal], budget - 1;
      }
      RanOne(old(Contents()), old(budget), PutJournal(journal), Contents(), budget, alive);
    }

    method RemoveJournal(tx: Id) returns (alive: bool)
      modifies this
      ensures Ran(old(Contents()), old(budget), [DropJournal(tx)], Contents(), budget, alive)
    {
      alive := budget > 0;
      if alive {
        journals, budget := journals - {tx}, budget - 1;
      }
      RanOne(old(Contents()), old(budget), DropJournal(tx), Contents(), budget, alive);
    }

    method WriteUpdateJournal(journal: UpdateJournal) returns (alive: bool)
      modifies this
      ensures Ran(old(Contents()), old(budget), [PutUpdate(journal)], Contents(), budget, alive)
    {
      alive := budget > 0;
      if alive {
        updates, budget := updates[journal.revision := journal], budget - 1;
      }
      RanOne(old(Contents()), old(budget), PutUpdate(journal), Contents(), budget, alive);
    }

    method RemoveUpdateJournal(revision: Id) returns (alive: bool)
      modifies this
      ensures Ran(old(Contents()), old(budget), [DropUpdate(revision)], Contents(), budget, alive)
    {
      alive := budget > 0;
      if alive {
        updates, budget := updates - {revision}, budget - 1;
      }
      RanOne(old(Contents()), old(budget), DropUpdate(revision), Contents(), budget, alive);
    }

    // Loops over secrets

    method SealAll(refs: seq<SecretRef>) returns (alive: bool)
      modifies this
      ensures Ran(old(Contents()), old(budget), Seals(refs), Contents(), budget, alive)
    {
      RanNothing(Contents(), budget);
      var i := 0;
      while i < |refs|
        invariant 0 <= i <= |refs|
        invariant Ran(old(Contents()), old(budget), Seals(refs[..i]), Contents(), budget, true)
      {
        ghost var before, left := Contents(), budget;
        alive := budget > 0;
        if alive {
          secrets, budget := secrets + {refs[i]}, budget - 1;
        }
        RanOne(before, left, Seal(refs[i]), Contents(), budget, alive);
        RanBoth(old(Contents()), old(budget), Seals(refs[..i]), before, left, [Seal(refs[i])], Contents(), budget,
                alive);
        assert Seals(refs[..i]) + [Seal(refs[i])] == Seals(refs[..i + 1]);
        if !alive {
          RanCut(old(Contents()), old(budget), Seals(refs[..i + 1]), Contents(), budget, Seals(refs[i + 1..]));
          assert Seals(refs[..i + 1]) + Seals(refs[i + 1..]) == Seals(refs);
          return;
        }
        i := i + 1;
      }
      assert refs[..|refs|] == refs;
      alive := true;
    }

    method DeleteSecrets(refs: seq<SecretRef>) returns (alive: bool)
      modifies this
      ensures Ran(old(Contents()), old(budget), DropSecrets(refs), Contents(), budget, alive)
    {
      RanNothing(Contents(), budget);
      var i := 0;
      while i < |refs|
        invariant 0 <= i <= |refs|
        invariant Ran(old(Contents()), old(budget), DropSecrets(refs[..i]), Contents(), budget, true)
      {
        ghost var before, left := Contents(), budget;
        alive := budget > 0;
        if alive {
          secrets, budget := secrets - {refs[i]}, budget - 1;
        }
        RanOne(before, left, DropSecret(refs[i]), Contents(), budget, alive);
        RanBoth(old(Contents()), old(budget), DropSecrets(refs[..i]), before, left, [DropSecret(refs[i])], Contents(),
                budget, alive);
        assert DropSecrets(refs[..i]) + [DropSecret(refs[i])] == DropSecrets(refs[..i + 1]);
        if !alive {
          RanCut(old(Contents()), old(budget), DropSecrets(refs[..i + 1]), Contents(), budget,
                 DropSecrets(refs[i + 1..]));
          assert DropSecrets(refs[..i + 1]) + DropSecrets(refs[i + 1..]) == DropSecrets(refs);
          return;
        }
        i := i + 1;
      }
      assert refs[..|refs|] == refs;
      alive := true;
    }

    // Operations

    /** `persist_record`: the generation advances with the write. */
    method PersistRecord(record: Record) returns (done: bool)
      modifies this
      ensures Ran(old(Contents()), old(budget),
                  ChangeWrites(old(Contents()), Persist(record.(generation := record.generation + 1))),
                  Contents(), budget, done)
    {
      done := WriteIdentity(record.(generation := record.generation + 1));
    }

    /** Preparing a revision: journal, its secret, the record, and the journal goes. */
    method PrepareUpdate(record: Record) returns (done: bool)
      requires record.pending.Some?
      modifies this
      ensures Ran(old(Contents()), old(budget), ChangeWrites(old(Contents()), Prepare(record)), Contents(), budget,
                  done)
    {
      var p := record.pending.value;
      var journal := UpdateJournal(UpdateKind.PrepareUpdate, p.id, record.id, p.refs);
      ghost var d, b := Contents(), budget;
      ghost var first, second, tail := [PutUpdate(journal)], Seals(p.refs), [PutRecord(record), DropUpdate(p.id)];
      done := WriteUpdateJournal(journal);
      if !done {
        RanCut(d, b, first, Contents(), budget, second + tail);
        return;
      }
      ghost var d1, b1 := Contents(), budget;
      done := SealAll(p.refs);
      RanBoth(d, b, first, d1, b1, second, Contents(), budget, done);
      assert first + second + tail == first + (second + tail);
      if !done {
        RanCut(d, b, first + second, Contents(), budget, tail);
        return;
      }
      ghost var d2, b2 := Contents(), budget;
      done := WriteAndClose(record, p.id);
      RanBoth(d, b, first + second, d2, b2, tail, Contents(), budget, done);
    }

    method WriteAndClose(record: Record, revision: Id) returns (done: bool)
      modifies this
      ensures Ran(old(Contents()), old(budget), [PutRecord(record), DropUpdate(revision)], Contents(), budget, done)
    {
      ghost var d, b := Contents(), budget;
      done := WriteIdentity(record);
      assert [PutRecord(record)] + [DropUpdate(revision)] == [PutRecord(record), DropUpdate(revision)];
      if !done {
        RanCut(d, b, [PutRecord(record)], Contents(), budget, [DropUpdate(revision)]);
        return;
      }
      ghost var d1, b1 := Contents(), budget;
      done := RemoveUpdateJournal(revision);
      RanBoth(d, b, [PutRecord(record)], d1, b1, [DropUpdate(revision)], Contents(), budget, done);
    }

    method DropAndClose(refs: seq<SecretRef>, revision: Id) returns (done: bool)
      modifies this
      ensures Ran(old(Contents()), old(budget), DropSecrets(refs) + [DropUpdate(revision)], Contents(), budget, done)
    {
      ghost var d, b := Contents(), budget;
      done := DeleteSecrets(refs);
      if !done {
        RanCut(d, b, DropSecrets(refs), Contents(), budget, [DropUpdate(revision)]);
        return;
      }
      ghost var d1, b1 := Contents(), budget;
      done := RemoveUpdateJournal(revision);
      RanBoth(d, b, DropSecrets(refs), d1, b1, [DropUpdate(revision)], Contents(), budget, done);
    }

    method JournalAndClear(journal: UpdateJournal, cleared: Record) returns (done: bool)
      modifies this
      ensures Ran(old(Contents()), old(budget), [PutUpdate(journal), PutRecord(cleared)], Contents(), budget, done)
    {
      ghost var d, b := Contents(), budget;
      ghost var first, second := [PutUpdate(journal)], [PutRecord(cleared)];
      assert [PutUpdate(journal), PutRecord(cleared)] == first + second;
      done := WriteUpdateJournal(journal);
      if !done {
        RanCut(d, b, first, Contents(), budget, second);
        return;
      }
      ghost var d1, b1 := Contents(), budget;
      done := WriteIdentity(cleared);
      RanBoth(d, b, first, d1, b1, second, Contents(), budget, done);
    }

    /** Aborting a revision: journal, the record without it, its secrets, and the journal goes. */
    method AbortUpdate(id: Id) returns (done: bool)
      requires id in records && records[id].id == id && records[id].pending.Some?
      modifies this
      ensures Ran(old(Contents()), old(budget), ChangeWrites(old(Contents()), Cleanup(Cleared(old(records)[id]))),
                  Contents(), budget, done)
    {
      var record := records[id];
      var p := record.pending.value;
      var journal := UpdateJournal(CleanupUpdate, p.id, id, p.refs);
      var cleared := record.(pending := None, generation := record.generation + 1);
      ghost var d, b := Contents(), budget;
      ghost var head, tail := [PutUpdate(journal), PutRecord(cleared)], DropSecrets(p.refs) + [DropUpdate(p.id)];
      assert ChangeWrites(d, Cleanup(Cleared(record))) == head + tail;
      done := JournalAndClear(journal, cleared);
      if !done {
        RanCut(d, b, head, Contents(), budget, tail);
        return;
      }
      ghost var d1, b1 := Contents(), budget;
      done := DropAndClose(p.refs, p.id);
      RanBoth(d, b, head, d1, b1, tail, Contents(), budget, done);
    }

    /** The record, its registry entry, and the journal goes. An identity the registry does not list stops it short. */
    method ListAndClose(record: Record, tx: Id) returns (done: bool)
      modifies this
      ensures Registered(old(Contents()), record.did, record.id) ==>
        Ran(old(Contents()), old(budget),
            [PutRecord(record), PutRegistry(Listed(old(registry), record)), DropJournal(tx)],
            Contents(), budget, done)
      ensures !Registered(old(Contents()), record.did, record.id) ==>
        !done && Ran(old(Contents()), old(budget), [PutRecord(record)], Contents(), budget, old(budget) > 0)
    {
      ghost var d, b := Contents(), budget;
      ghost var first, second, third := [PutRecord(record)], [PutRegistry(Listed(registry, record))], [DropJournal(tx)];
      assert first + second + third == [PutRecord(record), PutRegistry(Listed(registry, record)), DropJournal(tx)];
      assert first + (second + third) == first + second + third;
      done := WriteIdentity(record);
      if !done {
        RanCut(d, b, first, Contents(), budget, second + third);
        return;
      }
      ghost var d1, b1 := Contents(), budget;
      assert registry == old(registry) by { ApplyOne(d, PutRecord(record)); assert first[..1] == first; }
      if record.did !in registry.identities || registry.identities[record.did].id != record.id {
        return false;
      }
      done := WriteRegistry(Registry(registry.generation + 1, registry.identities[record.did := record.Summary()]));
      RanBoth(d, b, first, d1, b1, second, Contents(), budget, done);
      if !done {
        RanCut(d, b, first + second, Contents(), budget, third);
        return;
      }
      ghost var d2, b2 := Contents(), budget;
      done := RemoveJournal(tx);
      RanBoth(d, b, first + second, d2, b2, third, Contents(), budget, done);
    }

    /** `persist_state_transition`: the record and its registry entry change together. */
    method PersistStateTransition(tx: Id, record: Record) returns (done: bool)
      modifies this
      ensures var plan := ChangeWrites(old(Contents()), Transit(tx, record.(generation := record.generation + 1)));
        if Registered(old(Contents()), record.did, record.id)
        then Ran(old(Contents()), old(budget), plan, Contents(), budget, done)
        else !done && Ran(old(Contents()), old(budget), plan[..2], Contents(), budget, old(budget) >= 2)
    {
      var next := record.(generation := record.generation + 1);
      var journal := Journal(TransitionState, tx, record.id, record.did, []);
      ghost var d, b, first := Contents(), budget, [PutJournal(journal)];
      ghost var tail := [PutRecord(next), PutRegistry(Listed(registry, next)), DropJournal(tx)];
      ghost var plan := ChangeWrites(d, Transit(tx, next));
      assert first + tail == plan && first + [PutRecord(next)] == plan[..2];
      done := WriteJournal(journal);
      if !done {
        RanCut(d, b, first, Contents(), budget, tail);
        RanCut(d, b, first, Contents(), budget, [PutRecord(next)]);
        return;
      }
      ghost var d1, b1 := Contents(), budget;
      assert registry == old(registry) by { ApplyOne(d, PutJournal(journal)); assert first[..1] == first; }
      done := ListAndClose(next, tx);
      if Registered(d, record.did, record.id) {
        RanBoth(d, b, first, d1, b1, tail, Contents(), budget, done);
      } else {
        RanBoth(d, b, first, d1, b1, [PutRecord(next)], Contents(), budget, b1 > 0);
      }
    }

    /** Importing a root key: its secret is sealed before the record refers to it. */
    method ImportRootKey(tx: Id, ref: SecretRef, record: Record) returns (done: bool)
      modifies this
      ensures var plan := ChangeWrites(old(Contents()), Import(tx, ref, record));
        if Registered(old(Contents()), record.did, record.id)
        then Ran(old(Contents()), old(budget), plan, Contents(), budget, done)
        else !done && Ran(old(Contents()), old(budget), plan[..3], Contents(), budget, old(budget) >= 3)
    {
      var journal := Journal(ImportRoot, tx, record.id, record.did, [ref]);
      ghost var d, b, first, second := Contents(), budget, [PutJournal(journal)], Seals([ref]);
      ghost var tail := [PutRecord(record), PutRegistry(Listed(registry, record)), DropJournal(tx)];
      assert second == [Seal(ref)] && first + second + tail == ChangeWrites(d, Import(tx, ref, record));
      assert first + (second + tail) == first + second + tail;
      ghost var short := [PutRecord(record)];
      assert first + second + short == first + (second + short) == ChangeWrites(d, Import(tx, ref, record))[..3];
      done := WriteJournal(journal);
      if !done {
        RanCut(d, b, first, Contents(), budget, second + tail);
        RanCut(d, b, first, Contents(), budget, second + short);
        return;
      }
      ghost var d1, b1 := Contents(), budget;
      done := SealAll([ref]);
      RanBoth(d, b, first, d1, b1, second, Contents(), budget, done);
      if !done {
        RanCut(d, b, first + second, Contents(), budget, tail);
        RanCut(d, b, first + second, Contents(), budget, short);
        return;
      }
      ghost var d2, b2 := Contents(), budget;
      assert registry == old(registry) by {
        assert (first + second)[..2] == [PutJournal(journal), Seal(ref)];
        ApplyTwo(d, PutJournal(journal), Seal(ref));
      }
      done := ListAndClose(record, tx);
      if Registered(d, record.did, record.id) {
        RanBoth(d, b, first + second, d2, b2, tail, Contents(), budget, done);
      } else {
        RanBoth(d, b, first + second, d2, b2, short, Contents(), budget, b2 > 0);
      }
    }

    // Identities that come and go

    method FinishFounding(record: Record, tx: Id) returns (done: bool)
      modifies this
      ensures Ran(old(Contents()), old(budget), FoundTail(old(Contents()), tx, record), Contents(), budget, done)
    {
      ghost var d, b := Contents(), budget;
      var first := if record.state == Active then record.(state := Creating) else record;
      ghost var one, two := [PutRecord(first)], [PutRegistry(Listed(registry, record))];
      ghost var three, four := if record.state == Active then [PutRecord(record)] else [], [DropJournal(tx)];
      assert FoundTail(d, tx, record) == one + two + three + four;
      assert one + (two + three + four) == one + two + three + four;
      assert one + two + (three + four) == one + two + three + four;
      done := WriteIdentity(first);
      if !done {
        RanCut(d, b, one, Contents(), budget, two + three + four);
        return;
      }
      ghost var d1, b1 := Contents(), budget;
      assert registry == old(registry) by { ApplyOne(d, PutRecord(first)); assert one[..1] == one; }
      done := WriteRegistry(Registry(registry.generation + 1, registry.identities[record.did := record.Summary()]));
      RanBoth(d, b, one, d1, b1, two, Contents(), budget, done);
      if !done {
        RanCut(d, b, one + two, Contents(), budget, three + four);
        return;
      }
      ghost var d2, b2 := Contents(), budget;
      if record.state == Active {
        done := WriteIdentity(record);
      } else {
        RanNothing(d2, b2);
      }
      RanBoth(d, b, one + two, d2, b2, three, Contents(), budget, done);
      if !done {
        RanCut(d, b, one + two + three, Contents(), budget, four);
        return;
      }
      ghost var d3, b3 := Contents(), budget;
      done := RemoveJournal(tx);
      RanBoth(d, b, one + two + three, d3, b3, four, Contents(), budget, done);
    }

    /** The writes that bring a new identity in: its secrets first, then the record, then its registry entry. */
    method FoundIdentity(record: Record, tx: Id) returns (done: bool)
      modifies this
      ensures Ran(old(Contents()), old(budget), ChangeWrites(old(Contents()), Found(tx, record)), Contents(), budget,
                  done)
    {
      var refs := RefList(record.id, record.keys);
      var journal := Journal(JournalKind.CreateIdentity, tx, record.id, record.did, refs);
      ghost var d, b := Contents(), budget;
      ghost var first, second, tail := [PutJournal(journal)], Seals(refs), FoundTail(Contents(), tx, record);
      assert first + (second + tail) == first + second + tail;
      done := WriteJournal(journal);
      if !done {
        RanCut(d, b, first, Contents(), budget, second + tail);
        return;
      }
      ghost var d1, b1 := Contents(), budget;
      done := SealAll(refs);
      RanBoth(d, b, first, d1, b1, second, Contents(), budget, done);
      if !done {
        RanCut(d, b, first + second, Contents(), budget, tail);
        return;
      }
      ghost var d2, b2 := Contents(), budget;
      assert registry == old(registry) by {
        assert first[..1] == first && Seals(refs)[..|refs|] == Seals(refs);
        ApplyOne(d, PutJournal(journal));
        ApplySeals(d1, refs);
      }
      done := FinishFounding(record, tx);
      RanBoth(d, b, first + second, d2, b2, tail, Contents(), budget, done);
    }

    /** Creating refuses another registry generation, a leftover journal and a DID that is taken. */
    method CreateIdentity(record: Record, tx: Id, seen: nat) returns (refused: bool, done: bool)
      modifies this
      ensures refused
        <==> old(registry).generation != seen || old(journals) != map[] || record.did in old(registry).identities
      ensures refused ==> !done && Contents() == old(Contents()) && budget == old(budget)
      ensures !refused ==>
        Ran(old(Contents()), old(budget), ChangeWrites(old(Contents()), Found(tx, record)), Contents(), budget, done)
    {
      if registry.generation != seen || journals.Keys != {} || record.did in registry.identities {
        assert journals.Keys != {} ==> journals != map[];
        return true, false;
      }
      refused := false;
      done := FoundIdentity(record, tx);
    }

    method UnlistAndClose(id: Id, did: Did, tx: Id) returns (done: bool)
      modifies this
      ensures Ran(old(Contents()), old(budget),
                  [DropRecord(id),
                   PutRegistry(Registry(old(registry).generation + 1, old(registry).identities - {did})),
                   DropJournal(tx)],
                  Contents(), budget, done)
    {
      ghost var d, b := Contents(), budget;
      var next := Registry(registry.generation + 1, registry.identities - {did});
      ghost var first, second, third := [DropRecord(id)], [PutRegistry(next)], [DropJournal(tx)];
      assert first + second + third == [DropRecord(id), PutRegistry(next), DropJournal(tx)];
      assert first + (second + third) == first + second + third;
      done := RemoveIdentity(id);
      if !done {
        RanCut(d, b, first, Contents(), budget, second + third);
        return;
      }
      ghost var d1, b1 := Contents(), budget;
      done := WriteRegistry(next);
      RanBoth(d, b, first, d1, b1, second, Contents(), budget, done);
      if !done {
        RanCut(d, b, first + second, Contents(), budget, third);
        return;
      }
      ghost var d2, b2 := Contents(), budget;
      done := RemoveJournal(tx);
      RanBoth(d, b, first + second, d2, b2, third, Contents(), budget, done);
    }

    method JournalAndDelete(journal: Journal) returns (done: bool)
      modifies this
      ensures Ran(old(Contents()), old(budget), [PutJournal(journal)] + DropSecrets(journal.refs), Contents(), budget,
                  done)
      ensures done ==> registry == old(registry)
    {
      ghost var d, b, first, second := Contents(), budget, [PutJournal(journal)], DropSecrets(journal.refs);
      done := WriteJournal(journal);
      if !done {
        RanCut(d, b, first, Contents(), budget, second);
        return;
      }
      ghost var d1, b1 := Contents(), budget;
      done := DeleteSecrets(journal.refs);
      RanBoth(d, b, first, d1, b1, second, Contents(), budget, done);
      if done {
        assert first[..1] == first && second[..|journal.refs|] == second;
        ApplyOne(d, PutJournal(journal));
        ApplyDropSecrets(d1, journal.refs);
      }
    }

    /** The writes that remove an identity: its secrets, its record, its registry entry. */
    method DeleteIdentity(id: Id, tx: Id) returns (done: bool)
      requires id in records
      modifies this
      ensures Ran(old(Contents()), old(budget), ChangeWrites(old(Contents()), Delete(tx, id)), Contents(), budget, done)
    {
      var record := records[id];
      var refs := RefList(id, record.keys);
      var journal := Journal(DeleteNamespace, tx, id, record.did, refs);
      ghost var d, b, head := Contents(), budget, [PutJournal(journal)] + DropSecrets(refs);
      ghost var tail := [DropRecord(id),
                         PutRegistry(Registry(registry.generation + 1, registry.identities - {record.did})),
                         DropJournal(tx)];
      assert [PutJournal(journal)] + (DropSecrets(refs) + tail) == head + tail;
      done := JournalAndDelete(journal);
      if !done {
        RanCut(d, b, head, Contents(), budget, tail);
        return;
      }
      ghost var d1, b1 := Contents(), budget;
      done := UnlistAndClose(id, record.did, tx);
      RanBoth(d, b, head, d1, b1, tail, Contents(), budget, done);
    }

    // Recovery

    /** A registry entry that does not repeat the record is rewritten; then the journal goes. */
    method SyncAndClose(record: Record, tx: Id) returns (done: bool)
      modifies this
      ensures Ran(old(Contents()), old(budget), SyncRegistry(old(Contents()), record) + [DropJournal(tx)], Contents(),
                  budget, done)
    {
      ghost var d, b, sync := Contents(), budget, SyncRegistry(Contents(), record);
      if record.did !in registry.identities || registry.identities[record.did] != record.Summary() {
        done := WriteRegistry(Registry(registry.generation + 1, registry.identities[record.did := record.Summary()]));
        if !done {
          RanCut(d, b, sync, Contents(), budget, [DropJournal(tx)]);
          return;
        }
      } else {
        RanNothing(d, b);
      }
      ghost var d1, b1 := Contents(), budget;
      done := RemoveJournal(tx);
      RanBoth(d, b, sync, d1, b1, [DropJournal(tx)], Contents(), budget, done);
    }

    method DropThenClose(refs: seq<SecretRef>, tx: Id) returns (done: bool)
      modifies this
      ensures Ran(old(Contents()), old(budget), DropSecrets(refs) + [DropJournal(tx)], Contents(), budget, done)
    {
      ghost var d, b := Contents(), budget;
      done := DeleteSecrets(refs);
      if !done {
        RanCut(d, b, DropSecrets(refs), Contents(), budget, [DropJournal(tx)]);
        return;
      }
      ghost var d1, b1 := Contents(), budget;
      done := RemoveJournal(tx);
      RanBoth(d, b, DropSecrets(refs), d1, b1, [DropJournal(tx)], Contents(), budget, done);
    }

    /** Rolling a deletion forward. */
    method ResumeDeletion(journal: Journal, tx: Id) returns (done: bool)
      modifies this
      ensures Ran(old(Contents()), old(budget),
                  DropSecrets(journal.refs)
                  + ([DropRecord(journal.identity)]
                     + Unregister(old(Contents()), journal.did, journal.identity) + [DropJournal(tx)]),
                  Contents(), budget, done)
    {
      ghost var d, b := Contents(), budget;
      ghost var one, two, four := DropSecrets(journal.refs), [DropRecord(journal.identity)], [DropJournal(tx)];
      ghost var three := Unregister(d, journal.did, journal.identity);
      assert one + (two + three + four) == one + two + three + four;
      assert one + two + (three + four) == one + two + three + four;
      done := DeleteSecrets(journal.refs);
      if !done {
        RanCut(d, b, one, Contents(), budget, two + three + four);
        return;
      }
      ghost var d1, b1 := Contents(), budget;
      done := RemoveIdentity(journal.identity);
      RanBoth(d, b, one, d1, b1, two, Contents(), budget, done);
      if !done {
        RanCut(d, b, one + two, Contents(), budget, three + four);
        return;
      }
      ghost var d2, b2 := Contents(), budget;
      assert registry == old(registry) by {
        assert one[..|one|] == one && two[..1] == two;
        ApplyDropSecrets(d, journal.refs);
        ApplyOne(d1, DropRecord(journal.identity));
      }
      if journal.did in registry.identities && registry.identities[journal.did].id == journal.identity {
        done := WriteRegistry(Registry(registry.generation + 1, registry.identities - {journal.did}));
      } else {
        RanNothing(d2, b2);
      }
      RanBoth(d, b, one + two, d2, b2, three, Contents(), budget, done);
      if !done {
        RanCut(d, b, one + two + three, Contents(), budget, four);
        return;
      }
      ghost var d3, b3 := Contents(), budget;
      done := RemoveJournal(tx);
      RanBoth(d, b, one + two + three, d3, b3, four, Contents(), budget, done);
    }

    /** Rolling a creation back: its secrets and its record go. */
    method DiscardCreation(journal: Journal, tx: Id) returns (done: bool)
      modifies this
      ensures Ran(old(Contents()), old(budget),
                  DropSecrets(journal.refs) + [DropRecord(journal.identity), DropJournal(tx)],
                  Contents(), budget, done)
    {
      ghost var d, b := Contents(), budget;
      ghost var one, two, three := DropSecrets(journal.refs), [DropRecord(journal.identity)], [DropJournal(tx)];
      assert two + three == [DropRecord(journal.identity), DropJournal(tx)] && one + (two + three) == one + two + three;
      done := DeleteSecrets(journal.refs);
      if !done {
        RanCut(d, b, one, Contents(), budget, two + three);
        return;
      }
      ghost var d1, b1 := Contents(), budget;
      done := RemoveIdentity(journal.identity);
      RanBoth(d, b, one, d1, b1, two, Contents(), budget, done);
      if !done {
        RanCut(d, b, one + two, Contents(), budget, three);
        return;
      }
      ghost var d2, b2 := Contents(), budget;
      done := RemoveJournal(tx);
      RanBoth(d, b, one + two, d2, b2, three, Contents(), budget, done);
    }

    /** Rolling a creation forward: the record becomes active. */
    method ActivateAndClose(record: Record, tx: Id) returns (done: bool)
      modifies this
      ensures Ran(old(Contents()), old(budget), Activate(record) + [DropJournal(tx)], Contents(), budget, done)
    {
      ghost var d, b := Contents(), budget;
      if record.state == Creating {
        done := WriteIdentity(record.(state := Active));
        if !done {
          RanCut(d, b, Activate(record), Contents(), budget, [DropJournal(tx)]);
          return;
        }
      } else {
        RanNothing(d, b);
      }
      ghost var d1, b1 := Contents(), budget;
      done := RemoveJournal(tx);
      RanBoth(d, b, Activate(record), d1, b1, [DropJournal(tx)], Contents(), budget, done);
    }

    /** One creation journal is rolled forward or back; `ok` is false when recovery gives up on it. */
    method RecoverJournal(tx: Id) returns (ok: bool, done: bool)
      requires tx in journals
      modifies this
      ensures ok <==> JournalWrites(old(Contents()), tx).Some?
      ensures ok ==>
        Ran(old(Contents()), old(budget), JournalWrites(old(Contents()), tx).value, Contents(), budget, done)
      ensures !ok ==> Contents() == old(Contents()) && budget == old(budget)
    {
      var journal := journals[tx];
      ok, done := true, false;
      match journal.kind
      case TransitionState =>
        if !CanResume(Contents(), journal) {
          return false, false;
        }
        done := SyncAndClose(records[journal.identity], tx);
      case ImportRoot =>
        if !CanResume(Contents(), journal) {
          return false, false;
        }
        if RootImported(records[journal.identity]) {
          done := SyncAndClose(records[journal.identity], tx);
        } else {
          done := DropThenClose(journal.refs, tx);
        }
      case DeleteNamespace =>
        done := ResumeDeletion(journal, tx);
      case CreateIdentity =>
        if !Registered(Contents(), journal.did, journal.identity) {
          done := DiscardCreation(journal, tx);
        } else if !CanResume(Contents(), journal) {
          return false, false;
        } else {
          done := ActivateAndClose(records[journal.identity], tx);
        }
    }

    /** One update journal is rolled forward or back. */
    method RecoverUpdate(revision: Id) returns (ok: bool, done: bool)
      requires revision in updates
      modifies this
      ensures ok <==> UpdateWrites(old(Contents()), revision).Some?
      ensures ok ==>
        Ran(old(Contents()), old(budget), UpdateWrites(old(Contents()), revision).value, Contents(), budget, done)
      ensures !ok ==> Contents() == old(Contents()) && budget == old(budget)
    {
      var journal := updates[revision];
      if !CanRead(Contents(), journal.identity) {
        return false, false;
      }
      ok := true;
      ghost var d, b := Contents(), budget;
      var record := records[journal.identity];
      match journal.kind
      case PrepareUpdate =>
        if Awaits(record, revision) {
          done := RemoveUpdateJournal(revision);
          assert [] + [DropUpdate(revision)] == [DropUpdate(revision)];
        } else {
          done := DropAndClose(journal.refs, revision);
        }
      case CleanupUpdate =>
        ghost var tail := DropSecrets(journal.refs) + [DropUpdate(revision)];
        ghost var first := if Awaits(record, revision) then [PutRecord(Cleared(record))] else [];
        if Awaits(record, revision) {
          done := WriteIdentity(record.(pending := None, generation := record.generation + 1));
          if !done {
            RanCut(d, b, first, Contents(), budget, tail);
            return;
          }
        } else {
          RanNothing(d, b);
        }
        ghost var d1, b1 := Contents(), budget;
        done := DropAndClose(journal.refs, revision);
        RanBoth(d, b, first, d1, b1, tail, Contents(), budget, done);
    }

    /** All creation journals, in the order of their identifiers. */
    method RecoverAllJournals() returns (ok: bool, done: bool)
      modifies this
      ensures var trace := RecoverJournals(old(Contents()), old(journals).Keys);
        Ran(old(Contents()), old(budget), trace.writes, Contents(), budget, done) && (done ==> ok == trace.ok)
    {
      var listed := journals.Keys;
      ghost var d, b, total := Contents(), budget, RecoverJournals(Contents(), listed);
      ghost var made: seq<Write>, rest := [], total;
      RanNothing(d, b);
      assert [] + rest.writes == rest.writes;
      while listed != {}
        invariant Ran(d, b, made, Contents(), budget, true)
        invariant rest == RecoverJournals(Contents(), listed)
        invariant total == Trace(made + rest.writes, rest.ok)
        decreases listed
      {
        ghost var d1, b1 := Contents(), budget;
        var next := FirstOf(listed);
        ghost var ws: seq<Write>;
        ok, done, ws := RecoverJournalListed(next);
        if !ok {
          JournalsGiveUp(d1, listed);
          assert made + [] == made;
          return false, true;
        }
        JournalsUnfold(d1, listed, ws);
        ghost var after := RecoverJournals(ApplyAll(d1, ws), listed - {next});
        RanStep(d, b, made, d1, b1, ws, after.writes, Contents(), budget, done);
        if !done {
          return;
        }
        made, rest, listed := made + ws, after, listed - {next};
      }
      assert made + [] == made;
      ok, done := true, true;
    }

    method RecoverJournalListed(next: Id) returns (ok: bool, done: bool, ghost ws: seq<Write>)
      modifies this
      ensures ok ==>
        && next in old(journals) && JournalWrites(old(Contents()), next) == Some(ws)
        && Ran(old(Contents()), old(budget), ws, Contents(), budget, done)
      ensures !ok ==>
        && (next !in old(journals) || JournalWrites(old(Contents()), next).None?)
        && Contents() == old(Contents()) && budget == old(budget)
    {
      if next !in journals {
        return false, true, [];
      }
      ws := if JournalWrites(Contents(), next).Some? then JournalWrites(Contents(), next).value else [];
      ok, done := RecoverJournal(next);
    }

    /** All update journals, in the order of their identifiers. */
    method RecoverAllUpdates() returns (ok: bool, done: bool)
      modifies this
      ensures var trace := RecoverUpdates(old(Contents()), old(updates).Keys);
        Ran(old(Contents()), old(budget), trace.writes, Contents(), budget, done) && (done ==> ok == trace.ok)
    {
      var listed := updates.Keys;
      ghost var d, b, total := Contents(), budget, RecoverUpdates(Contents(), listed);
      ghost var made: seq<Write>, rest := [], total;
      RanNothing(d, b);
      assert [] + rest.writes == rest.writes;
      while listed != {}
        invariant Ran(d, b, made, Contents(), budget, true)
        invariant rest == RecoverUpdates(Contents(), listed)
        invariant total == Trace(made + rest.writes, rest.ok)
        decreases listed
      {
        ghost var d1, b1 := Contents(), budget;
        var next := FirstOf(listed);
        ghost var ws: seq<Write>;
        ok, done, ws := RecoverUpdateListed(next);
        if !ok {
          UpdatesGiveUp(d1, listed);
          assert made + [] == made;
          return false, true;
        }
        UpdatesUnfold(d1, listed, ws);
        ghost var after := RecoverUpdates(ApplyAll(d1, ws), listed - {next});
        RanStep(d, b, made, d1, b1, ws, after.writes, Contents(), budget, done);
        if !done {
          return;
        }
        made, rest, listed := made + ws, after, listed - {next};
      }
      assert made + [] == made;
      ok, done := true, true;
    }

    method RecoverUpdateListed(next: Id) returns (ok: bool, done: bool, ghost ws: seq<Write>)
      modifies this
      ensures ok ==>
        && next in old(updates) && UpdateWrites(old(Contents()), next) == Some(ws)
        && Ran(old(Contents()), old(budget), ws, Contents(), budget, done)
      ensures !ok ==>
        && (next !in old(updates) || UpdateWrites(old(Contents()), next).None?)
        && Contents() == old(Contents()) && budget == old(budget)
    {
      if next !in updates {
        return false, true, [];
      }
      ws := if UpdateWrites(Contents(), next).Some? then UpdateWrites(Contents(), next).value else [];
      ok, done := RecoverUpdate(next);
    }

    /** Recovery: the creation journals, then the update journals. */
    method RecoverStore() returns (ok: bool, done: bool)
      modifies this
      ensures Ran(old(Contents()), old(budget), Recover(old(Contents())).writes, Contents(), budget, done)
      ensures done ==> ok == Recover(old(Contents())).ok
    {
      ghost var d, b, first := Contents(), budget, RecoverJournals(Contents(), journals.Keys);
      ok, done := RecoverAllJournals();
      ghost var second := RecoverUpdates(ApplyAll(d, first.writes), ApplyAll(d, first.writes).updates.Keys);
      if !done {
        if first.ok {
          RanCut(d, b, first.writes, Contents(), budget, second.writes);
        }
        return;
      }
      if !ok {
        return;
      }
      ghost var d1, b1 := Contents(), budget;
      assert first.writes[..|first.writes|] == first.writes && d1 == ApplyAll(d, first.writes);
      ok, done := RecoverAllUpdates();
      RanBoth(d, b, first.writes, d1, b1, second.writes, Contents(), budget, done);
    }
  }

  /** The least of some identifiers. */
  method FirstOf(ids: set<Id>) returns (least: Id)
    requires ids != {}
    ensures least == Least(ids)
  {
    least :| least in ids;
    var rest := ids - {least};
    while rest != {}
      invariant rest <= ids && least in ids
      invariant forall id :: id in ids && id !in rest ==> least <= id
      decreases rest
    {
      var id :| id in rest;
      if id < least {
        least := id;
      }
      rest := rest - {id};
    }
  }

  /**
   Where the operations meet the proofs: a change carried out until the process died, followed by
   recovery, leaves a consistent store from before or after it.
   */
  lemma DiedOperationSettles(d: Disk, budget: nat, c: Change, part: Disk, left: nat, done: bool)
    requires Consistent(d) && Admissible(d, c) && Ran(d, budget, ChangeWrites(d, c), part, left, done)
    ensures Recover(part).ok && Settles(d, c, Recovered(part)) && Consistent(Recovered(part))
    ensures done ==> part == After(d, c)
  {
    CrashedChangeSettles(d, c, Reached(budget, ChangeWrites(d, c)), []);
    if done {
      assert ChangeWrites(d, c)[..|ChangeWrites(d, c)|] == ChangeWrites(d, c);
      ChangeCompletes(d, c);
    }
  }
}
