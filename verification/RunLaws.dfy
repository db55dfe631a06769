/** Every step of every run keeps the invariant of the store. */
module RunLaws {
  import opened Model
  import opened CrashAtomicity
  import opened Engine
  import opened EngineLaws
  import opened Births
  import opened Runs
  import T = Transitions

  // What a step may do to the stored records

  /** The record of one identity is replaced, as some request asked. */
  ghost predicate Updates(s: Store, e: Event, q: Record, end: Store) {
    && e.Ask? && e.h in s.handles
    && q.id in s.disk.records && s.handles[e.h] == s.disk.records[q.id]
    && (e.request.Propose? ==> e.request.revision !in s.used)
    && Evolves(s.disk.records[q.id], q) && RevisionStep(s.disk.records[q.id], e.request, q)
    && end.disk.records == s.disk.records[q.id := q]
  }

  ghost predicate Adds(s: Store, e: Event, end: Store) {
    && e.Bring? && e.id !in s.used && Born(e.id, e.birth).Some?
    && end.disk.records == s.disk.records[e.id := Born(e.id, e.birth).value]
    && e.id in end.used
  }

  ghost predicate Removes(s: Store, e: Event, id: Id, end: Store) {
    && (e.Remove? || e.Discard?)
    && id in s.disk.records && s.disk.records[id].pending.None?
    && end.disk.records == s.disk.records - {id}
  }

  lemma SettledRecords(d: Disk, c: Change, fate: Fate)
    requires Consistent(d) && Admissible(d, c) && !c.Found? && !c.Delete?
    ensures Plannable(d, c) && Consistent(Land(d, c, fate))
    ensures Land(d, c, fate).records == d.records || Land(d, c, fate).records == d.records[c.record.id := c.record]
    ensures fate.Completes? ==> Land(d, c, fate).records == d.records[c.record.id := c.record]
    ensures Land(d, c, fate).transitions == d.transitions
  {
    LandSettles(d, c, fate);
  }

  lemma UpToDateHandle(s: Store, h: nat, request: Request)
    requires Inv(s) && h in s.handles && Stored(s.disk, s.handles[h]).Some?
    ensures UpToDate(s.disk, s.handles[h])
  {
    assert Coheres(s.handles[h], s.disk);
  }

  lemma CarriedUpdates(s: Store, e: Event, c: Change, end: Store)
    requires e.Ask? && e.h in s.handles && UpToDate(s.disk, s.handles[e.h])
    requires Lawful(s.disk, s.handles[e.h], e.request, c)
    requires e.request.Propose? ==> e.request.revision !in s.used
    requires Plannable(s.disk, c) && end == Carried(s, e.h, e.request, e.fate, c)
    ensures Consistent(end.disk) && end.disk.transitions == s.disk.transitions
    ensures end.disk.records == s.disk.records || Updates(s, e, c.record, end)
    ensures e.fate.Completes? ==> Updates(s, e, c.record, end)
  {
    SettledRecords(s.disk, c, e.fate);
  }

  lemma AskIsCarried(s: Store, e: Event, c: Change)
    requires e.Ask? && e.h in s.handles && Respond(s.disk, s.handles[e.h], e.request) == Make(c)
    requires e.request.Propose? ==> e.request.revision !in s.used
    ensures Plannable(s.disk, c) && !c.Delete? && Step(s, e) == Carried(s, e.h, e.request, e.fate, c)
  {
    RespondPlannable(s.disk, s.handles[e.h], e.request, c);
  }

  lemma AskLawful(s: Store, h: nat, request: Request, c: Change)
    requires Inv(s) && h in s.handles && Respond(s.disk, s.handles[h], request) == Make(c)
    ensures UpToDate(s.disk, s.handles[h]) && Lawful(s.disk, s.handles[h], request, c)
  {
    MakesOnlyWhenStored(s.disk, s.handles[h], request);
    UpToDateHandle(s, h, request);
    RespondLawful(s.disk, s.handles[h], request, c);
  }

  lemma AskUpdates(s: Store, e: Event, c: Change)
    requires Inv(s) && e.Ask? && e.h in s.handles && Respond(s.disk, s.handles[e.h], e.request) == Make(c)
    requires e.request.Propose? ==> e.request.revision !in s.used
    ensures Lawful(s.disk, s.handles[e.h], e.request, c)
    ensures UpToDate(s.disk, s.handles[e.h])
    ensures var end := Step(s, e);
      && Consistent(end.disk) && end.disk.transitions == s.disk.transitions
      && (end.disk.records == s.disk.records || Updates(s, e, c.record, end))
      && (e.fate.Completes? ==> Updates(s, e, c.record, end))
  {
    AskLawful(s, e.h, e.request, c);
    AskIsCarried(s, e, c);
    CarriedUpdates(s, e, c, Step(s, e));
  }

  lemma SettledFounding(d: Disk, tx: Id, r: Record, fate: Fate)
    requires Consistent(d) && Admissible(d, Found(tx, r))
    ensures var end := Land(d, Found(tx, r), fate);
      && Consistent(end) && end.transitions == d.transitions
      && (end.records == d.records || end.records == d.records[r.id := r])
      && (fate.Completes? ==> end.records == d.records[r.id := r])
  {
    LandSettles(d, Found(tx, r), fate);
  }

  lemma BirthAdmissible(s: Store, m: nat, id: Id, birth: Birth, tx: Id)
    requires Consistent(s.disk) && RecordsKept(s) && CanBring(s, m, id, birth)
    ensures Admissible(s.disk, Found(tx, Born(id, birth).value))
  {
    BornKept(id, birth);
  }

  lemma BroughtAdds(s: Store, e: Event, end: Store)
    requires Inv(s) && e.Bring? && CanBring(s, e.m, e.id, e.birth)
    requires end == BringStep(s, e.m, e.h, e.id, e.birth, e.tx, e.fate)
    ensures Consistent(end.disk) && end.disk.transitions == s.disk.transitions
    ensures end.disk.records == s.disk.records || Adds(s, e, end)
    ensures e.fate.Completes? ==> Adds(s, e, end)
  {
    BirthAdmissible(s, e.m, e.id, e.birth, e.tx);
    BornKept(e.id, e.birth);
    SettledFounding(s.disk, e.tx, Born(e.id, e.birth).value, e.fate);
  }

  lemma BringAdds(s: Store, e: Event)
    requires Inv(s) && e.Bring? && CanBring(s, e.m, e.id, e.birth)
    ensures var end := Step(s, e);
      && Consistent(end.disk) && end.disk.transitions == s.disk.transitions
      && (end.disk.records == s.disk.records || Adds(s, e, end))
      && (e.fate.Completes? ==> Adds(s, e, end))
  {
    BroughtAdds(s, e, BringStep(s, e.m, e.h, e.id, e.birth, e.tx, e.fate));
  }

  lemma SettledRemoval(d: Disk, tx: Id, id: Id, fate: Fate)
    requires Consistent(d) && id in d.records && d.records[id].pending.None?
    ensures var end := Land(d, Delete(tx, id), fate);
      && Consistent(end) && end.transitions == d.transitions
      && (end.records == d.records || end.records == d.records - {id})
  {
    LandSettles(d, Delete(tx, id), fate);
  }

  /** The identity a removal takes out, if it goes ahead. */
  function Removed(s: Store, e: Event): Option<Id>
    requires e.Remove? || e.Discard?
  {
    if e.Remove? && AlreadyRemoved(s, e.m, e.did, e.expected) then None
    else if !CanRemove(s, e.m, e.did, e.expected) then None
    else
      var id := s.disk.registry.identities[e.did].id;
      if (e.Remove? && Deletable(s.disk.records[id])) || (e.Discard? && id == e.id && Discardable(s.disk.records[id]))
      then Some(id)
      else None
  }

  lemma RemovalIs(s: Store, e: Event)
    requires e.Remove? || e.Discard?
    ensures Removed(s, e).Some? ==>
      && Removed(s, e).value in s.disk.records && s.disk.records[Removed(s, e).value].pending.None?
      && Step(s, e) == RemoveStep(s, e.m, Removed(s, e).value, e.tx, e.fate)
    ensures Removed(s, e).None? ==> Step(s, e) == s.(managers := Step(s, e).managers)
  {
  }

  /** A removal leaves the records alone or takes one identity out. */
  lemma LeavingRemoves(s: Store, e: Event)
    requires Inv(s) && (e.Remove? || e.Discard?)
    ensures var end := Step(s, e);
      && end.disk.transitions == s.disk.transitions && end.pins == s.pins
      && (end.disk.records == s.disk.records || (Removed(s, e).Some? && Removes(s, e, Removed(s, e).value, end)))
  {
    RemovalIs(s, e);
    if Removed(s, e).Some? {
      SettledRemoval(s.disk, e.tx, Removed(s, e).value, e.fate);
    }
  }

  // The invariant, part by part

  lemma CoheresAfterUpdate(copy: Record, d: Disk, end: Disk, q: Record)
    requires Coheres(copy, d) && q.id in d.records && Evolves(d.records[q.id], q)
    requires end.records == d.records[q.id := q]
    ensures Coheres(copy, end)
  {
  }

  /** The history a request leaves: a proposal draws its revision and remembers its base. */
  ghost predicate Noted(s: Store, e: Event, end: Store) {
    && e.Ask? && e.h in s.handles
    && end.used == (if e.request.Propose? then s.used + {e.request.revision} else s.used)
    && end.bases == (if e.request.Propose? then s.bases[e.request.revision := s.handles[e.h].document] else s.bases)
  }

  /** Where a pending revision comes from. */
  lemma PendingOrigin(r: Record, request: Request, q: Record)
    requires RevisionStep(r, request, q) && q.pending.Some?
    ensures || (r.pending.Some? && q.pending.value.id == r.pending.value.id)
            || (r.pending.None? && request.Propose? && q.pending.value.id == request.revision)
  {
  }

  lemma BaseAfterUpdate(s: Store, e: Event, r: Record, q: Record, end: Store)
    requires BaseKept(s, r) && Kept(r) && Evolves(r, q) && Noted(s, e, end) && RevisionStep(r, e.request, q)
    requires e.request.Propose? ==> e.request.revision !in s.used
    requires s.handles[e.h] == r
    ensures BaseKept(end, q)
  {
    if q.pending.Some? && r.pending.Some? {
      var p := r.pending.value;
      assert SameRevision(p, q.pending.value) && PendingKept(r, p) && PendingKept(q, q.pending.value);
    }
  }

  lemma OtherBases(s: Store, e: Event, end: Store, r: Record)
    requires BaseKept(s, r) && Noted(s, e, end)
    requires e.request.Propose? ==> e.request.revision !in s.used
    ensures BaseKept(end, r)
  {
  }

  lemma RecordsAfterUpdate(s: Store, e: Event, q: Record, end: Store)
    requires RecordsKept(s) && Updates(s, e, q, end) && Noted(s, e, end)
    ensures RecordsKept(end)
  {
    forall id | id in end.disk.records
      ensures id in end.used && Kept(end.disk.records[id]) && BaseKept(end, end.disk.records[id])
    {
      assert id in s.disk.records;
      if id == q.id {
        BaseAfterUpdate(s, e, s.disk.records[id], q, end);
      } else {
        OtherBases(s, e, end, s.disk.records[id]);
      }
    }
  }

  lemma ApartAfterUpdate(s: Store, e: Event, q: Record, end: Store)
    requires RevisionsApart(s.disk) && Updates(s, e, q, end)
    requires forall id :: id in s.disk.records ==> BaseKept(s, s.disk.records[id])
    ensures RevisionsApart(end.disk)
  {
    var r := s.disk.records[q.id];
    if q.pending.Some? {
      PendingOrigin(r, e.request, q);
    }
    forall a | a in s.disk.records && a != q.id
      ensures !SameWait(s.disk.records[a], q)
    {
      assert BaseKept(s, s.disk.records[a]);
      assert !SameWait(s.disk.records[a], r);
    }
  }

  /** Journals stay pinned while the stored records only move on. */
  lemma PinsAfter(s: Store, end: Store)
    requires forall op :: op in s.disk.transitions ==> Pinned(s, op)
    requires end.disk.transitions == s.disk.transitions && end.pins == s.pins && s.used <= end.used
    requires forall copy: Record :: Coheres(copy, s.disk) && copy.id in s.used ==> Coheres(copy, end.disk)
    ensures forall op :: op in end.disk.transitions ==> Pinned(end, op)
  {
    forall op | op in end.disk.transitions
      ensures Pinned(end, op)
    {
      assert Pinned(s, op);
    }
  }

  lemma HandlesAfterUpdate(s: Store, e: Event, q: Record, end: Store)
    requires HandlesCohere(s) && Updates(s, e, q, end) && s.used <= end.used
    requires end.handles == s.handles[e.h := q] || end.handles == s.handles - {e.h}
    ensures HandlesCohere(end)
  {
    forall h | h in end.handles
      ensures end.handles[h].id in end.used && Coheres(end.handles[h], end.disk)
    {
      if end.handles[h] != q {
        CoheresAfterUpdate(end.handles[h], s.disk, end.disk, q);
      } else {
        assert s.handles[e.h].id in s.used;
      }
    }
  }

  lemma UpdateKeeps(s: Store, e: Event, q: Record, end: Store)
    requires Inv(s) && Updates(s, e, q, end) && Noted(s, e, end) && Consistent(end.disk)
    requires end.disk.transitions == s.disk.transitions && end.pins == s.pins
    requires end.handles == s.handles[e.h := q] || end.handles == s.handles - {e.h}
    ensures Inv(end)
  {
    RecordsAfterUpdate(s, e, q, end);
    ApartAfterUpdate(s, e, q, end);
    HandlesAfterUpdate(s, e, q, end);
    forall copy | Coheres(copy, s.disk)
      ensures Coheres(copy, end.disk)
    {
      CoheresAfterUpdate(copy, s.disk, end.disk, q);
    }
    PinsAfter(s, end);
  }

  /** The history and handles after a request that made a change. */
  lemma AskNotes(s: Store, e: Event, c: Change)
    requires e.Ask? && e.h in s.handles && Respond(s.disk, s.handles[e.h], e.request) == Make(c)
    requires e.request.Propose? ==> e.request.revision !in s.used
    ensures var end := Step(s, e);
      && Noted(s, e, end) && end.pins == s.pins && !c.Delete?
      && end.handles == if e.fate.Completes? then s.handles[e.h := c.record] else s.handles - {e.h}
  {
    AskIsCarried(s, e, c);
    CarriedNotes(s, e, c, Step(s, e));
  }

  predicate Proceeds(s: Store, e: Event) {
    && e.Ask? && e.h in s.handles
    && (e.request.Propose? ==> e.request.revision !in s.used)
    && Respond(s.disk, s.handles[e.h], e.request).Make?
  }

  lemma AskIdle(s: Store, e: Event)
    requires e.Ask? && !Proceeds(s, e)
    ensures Step(s, e) == s
  {
  }

  lemma CarriedNotes(s: Store, e: Event, c: Change, end: Store)
    requires e.Ask? && e.h in s.handles && Plannable(s.disk, c) && !c.Delete?
    requires end == Carried(s, e.h, e.request, e.fate, c)
    ensures Noted(s, e, end) && end.pins == s.pins
    ensures end.handles == if e.fate.Completes? then s.handles[e.h := c.record] else s.handles - {e.h}
  {
  }

  /** A request whose change did not land leaves the history and one handle less. */
  lemma LostKeeps(s: Store, e: Event, end: Store)
    requires Inv(s) && Noted(s, e, end) && Consistent(end.disk) && end.pins == s.pins
    requires end.disk.records == s.disk.records && end.disk.transitions == s.disk.transitions
    requires end.handles == s.handles - {e.h}
    requires e.request.Propose? ==> e.request.revision !in s.used
    ensures Inv(end)
  {
    forall h | h in end.handles
      ensures end.handles[h].id in end.used && Coheres(end.handles[h], end.disk)
    {
      assert Coheres(s.handles[h], s.disk);
    }
    IdleKeeps(s, end);
  }

  lemma CarriedKeeps(s: Store, e: Event, c: Change, end: Store)
    requires Inv(s) && e.Ask? && e.h in s.handles
    requires UpToDate(s.disk, s.handles[e.h]) && Lawful(s.disk, s.handles[e.h], e.request, c)
    requires e.request.Propose? ==> e.request.revision !in s.used
    requires Plannable(s.disk, c) && end == Carried(s, e.h, e.request, e.fate, c)
    ensures Inv(end)
  {
    CarriedUpdates(s, e, c, end);
    CarriedNotes(s, e, c, end);
    if Updates(s, e, c.record, end) {
      UpdateKeeps(s, e, c.record, end);
    } else {
      LostKeeps(s, e, end);
    }
  }

  lemma AskKeeps(s: Store, e: Event)
    requires Inv(s) && e.Ask?
    ensures Inv(Step(s, e))
  {
    if Proceeds(s, e) {
      var c := Respond(s.disk, s.handles[e.h], e.request).change;
      AskLawful(s, e.h, e.request, c);
      AskIsCarried(s, e, c);
      CarriedKeeps(s, e, c, Step(s, e));
    } else {
      AskIdle(s, e);
    }
  }

  /** A step that leaves the stored records alone and hands out no new copies. */
  lemma IdleKeeps(s: Store, end: Store)
    requires Inv(s) && Consistent(end.disk)
    requires end.disk.records == s.disk.records && end.disk.transitions == s.disk.transitions
    requires s.used <= end.used && end.pins == s.pins
    requires forall id :: id in s.used && id in s.bases ==> id in end.bases && end.bases[id] == s.bases[id]
    requires forall h :: h in end.handles ==> end.handles[h].id in end.used && Coheres(end.handles[h], end.disk)
    ensures Inv(end)
  {
    forall id | id in end.disk.records
      ensures BaseKept(end, end.disk.records[id])
    {
      assert BaseKept(s, s.disk.records[id]);
    }
    PinsAfter(s, end);
  }

  // Identities that come and go

  lemma BornCoheres(d: Disk, end: Disk, q: Record, copy: Record, used: set<Id>)
    requires end.records == d.records[q.id := q] && q.id !in used && copy.id in used && Coheres(copy, d)
    ensures Coheres(copy, end)
  {
  }

  lemma BringRecords(s: Store, e: Event, end: Store)
    requires RecordsKept(s) && RevisionsApart(s.disk) && Adds(s, e, end)
    requires end.used == s.used + {e.id} && end.bases == s.bases
    ensures RecordsKept(end) && RevisionsApart(end.disk)
  {
    BornKept(e.id, e.birth);
    forall id | id in end.disk.records
      ensures id in end.used && Kept(end.disk.records[id]) && BaseKept(end, end.disk.records[id])
    {
      if id != e.id {
        assert BaseKept(s, s.disk.records[id]);
      }
    }
  }

  lemma BringCoheres(s: Store, e: Event, end: Store)
    requires HandlesCohere(s) && Adds(s, e, end)
    requires end.used == s.used + {e.id}
    requires end.handles == s.handles || end.handles == s.handles[e.h := Born(e.id, e.birth).value]
    requires forall op :: op in s.disk.transitions ==> Pinned(s, op)
    requires end.disk.transitions == s.disk.transitions && end.pins == s.pins
    ensures HandlesCohere(end)
    ensures forall op :: op in end.disk.transitions ==> Pinned(end, op)
  {
    var q := Born(e.id, e.birth).value;
    BornKept(e.id, e.birth);
    forall copy: Record | copy.id in s.used && Coheres(copy, s.disk)
      ensures Coheres(copy, end.disk)
    {
      BornCoheres(s.disk, end.disk, q, copy, s.used);
    }
    PinsAfter(s, end);
  }

  lemma BroughtKeeps(s: Store, e: Event, end: Store)
    requires Inv(s) && e.Bring? && CanBring(s, e.m, e.id, e.birth)
    requires end == BringStep(s, e.m, e.h, e.id, e.birth, e.tx, e.fate)
    ensures Inv(end)
  {
    BroughtAdds(s, e, end);
    if Adds(s, e, end) {
      BringRecords(s, e, end);
      BringCoheres(s, e, end);
    } else {
      IdleKeeps(s, end);
    }
  }

  lemma BringKeeps(s: Store, e: Event)
    requires Inv(s) && e.Bring?
    ensures Inv(Step(s, e))
  {
    if CanBring(s, e.m, e.id, e.birth) {
      BroughtKeeps(s, e, BringStep(s, e.m, e.h, e.id, e.birth, e.tx, e.fate));
    }
  }

  lemma RemovalKeeps(s: Store, end: Store, id: Id)
    requires Inv(s) && Consistent(end.disk) && end.disk.transitions == s.disk.transitions
    requires end.disk.records == s.disk.records - {id}
    requires end.handles == s.handles && end.used == s.used && end.bases == s.bases && end.pins == s.pins
    ensures Inv(end)
  {
    forall id | id in end.disk.records
      ensures id in end.used && Kept(end.disk.records[id]) && BaseKept(end, end.disk.records[id])
    {
      assert BaseKept(s, s.disk.records[id]);
    }
    forall copy | Coheres(copy, s.disk)
      ensures Coheres(copy, end.disk)
    {
    }
    PinsAfter(s, end);
  }

  lemma RemoveStepKeeps(s: Store, m: nat, id: Id, tx: Id, fate: Fate)
    requires Inv(s) && id in s.disk.records && s.disk.records[id].pending.None?
    ensures Inv(RemoveStep(s, m, id, tx, fate))
  {
    var end := RemoveStep(s, m, id, tx, fate);
    SettledRemoval(s.disk, tx, id, fate);
    if end.disk.records == s.disk.records {
      IdleKeeps(s, end);
    } else {
      RemovalKeeps(s, end, id);
    }
  }

  /** A step that only changes what managers and sessions have seen. */
  lemma ViewKeeps(s: Store, end: Store)
    requires Inv(s) && end == s.(managers := end.managers, sessions := end.sessions)
    ensures Inv(end)
  {
    IdleKeeps(s, end);
  }

  lemma LeavingKeeps(s: Store, e: Event)
    requires Inv(s) && (e.Remove? || e.Discard?)
    ensures Inv(Step(s, e))
  {
    RemovalIs(s, e);
    if Removed(s, e).Some? {
      RemoveStepKeeps(s, e.m, Removed(s, e).value, e.tx, e.fate);
    } else {
      ViewKeeps(s, Step(s, e));
    }
  }

  // Transitions

  lemma WrittenConsistent(d: Disk, transitions: map<string, Transition>)
    requires Consistent(d)
    ensures Consistent(d.(transitions := transitions))
  {
  }

  lemma RecordsUntouched(s: Store, end: Store)
    requires Inv(s) && end.disk == s.disk.(transitions := end.disk.transitions)
    requires end.handles == s.handles && end.used == s.used && end.bases == s.bases
    ensures Consistent(end.disk) && RecordsKept(end) && RevisionsApart(end.disk) && HandlesCohere(end)
    ensures forall copy: Record :: Coheres(copy, s.disk) ==> Coheres(copy, end.disk)
  {
    WrittenConsistent(s.disk, end.disk.transitions);
    forall id | id in end.disk.records
      ensures id in end.used && Kept(end.disk.records[id]) && BaseKept(end, end.disk.records[id])
    {
      assert BaseKept(s, s.disk.records[id]);
    }
  }

  /** A journal that moves on: the same transition, in a state reachable from the one before. */
  predicate Continues(before: Transition, after: Transition) {
    && after == before.(state := after.state, generation := after.generation)
    && (after == before || (IsOpen(before.state) && after.generation == before.generation + 1))
  }

  lemma ContinuesWithoutFork(d: Disk, journal: Transition)
    requires NoFork(d) && journal.operation in d.transitions && Continues(d.transitions[journal.operation], journal)
    ensures NoFork(d.(transitions := d.transitions[journal.operation := journal]))
  {
    var end := d.(transitions := d.transitions[journal.operation := journal]);
    forall a, b | a in end.transitions && b in end.transitions && Rivals(end.transitions[a], end.transitions[b])
      ensures a == b
    {
      assert Rivals(d.transitions[a], d.transitions[b]);
    }
  }

  lemma JournaledKeeps(s: Store, t: nat, journal: Transition)
    requires Inv(s) && journal.operation in s.disk.transitions
    requires Continues(s.disk.transitions[journal.operation], journal)
    ensures Inv(Journaled(s, t, Some(journal)))
  {
    var end := Journaled(s, t, Some(journal));
    RecordsUntouched(s, end);
    ContinuesWithoutFork(s.disk, journal);
    forall op | op in end.disk.transitions
      ensures Pinned(end, op)
    {
      assert Pinned(s, op);
    }
  }

  lemma NewTransitionKeeps(s: Store, t: nat, journal: Transition)
    requires Inv(s) && journal.operation !in s.disk.transitions && !T.Claimed(s.disk, journal.predecessorDid)
    requires journal.predecessorId in s.disk.records && journal.successorId in s.disk.records
    requires s.disk.records[journal.predecessorId].generation == journal.predecessorGeneration
    requires s.disk.records[journal.successorId].generation == journal.successorGeneration
    ensures Inv(Journaled(s, t, Some(journal)).(
      pins := s.pins[journal.operation := Pin(s.disk.records[journal.predecessorId],
                                              s.disk.records[journal.successorId])]))
  {
    var pins := s.pins[journal.operation := Pin(s.disk.records[journal.predecessorId],
                                                s.disk.records[journal.successorId])];
    var end := Journaled(s, t, Some(journal)).(pins := pins);
    RecordsUntouched(s, end);
    assert RegistryMatches(s.disk);
    forall op | op in end.disk.transitions
      ensures Pinned(end, op)
    {
      if op != journal.operation {
        assert Pinned(s, op);
      }
    }
    forall a | a in s.disk.transitions
      ensures !Rivals(s.disk.transitions[a], journal)
    {
    }
  }

  lemma PrepareTransitionKeeps(s: Store, e: Event)
    requires Inv(s) && e.PrepareTransition?
    ensures Inv(Step(s, e))
  {
    if e.m in s.managers {
      var journal := T.PreparedTransition(s.disk, s.managers[e.m], e.proposal, e.setting);
      if journal.Some? {
        if e.proposal.operation in s.disk.transitions {
          ViewKeeps(s, Step(s, e));
        } else {
          assert RegistryMatches(s.disk);
          NewTransitionKeeps(s, e.t, journal.value);
        }
      }
    }
  }

  /** The journal a session step writes, if any. */
  function SessionWrites(s: Store, e: Event): Option<Transition> {
    if e.BeginTransition? && e.t in s.sessions then T.BegunTransition(s.disk, s.sessions[e.t])
    else if e.CompleteTransition? && e.t in s.sessions
    then T.CompletedTransition(s.disk, s.sessions[e.t], e.attempt, e.result)
    else if e.ReconcileTransition? && e.t in s.sessions
    then T.ReconciledTransition(s.disk, s.sessions[e.t], e.observation)
    else None
  }

  predicate IsSessionStep(e: Event) {
    e.BeginTransition? || e.CompleteTransition? || e.ReconcileTransition?
  }

  ghost predicate Keyed(d: Disk) {
    forall op :: op in d.transitions ==> d.transitions[op].operation == op
  }

  /** A journal written by a session continues the stored one, which was validated and open. */
  ghost predicate SessionContinued(d: Disk, session: Transition, journal: Transition) {
    && journal.operation in d.transitions
    && T.Validated(d, session) == Some(d.transitions[journal.operation])
    && IsOpen(d.transitions[journal.operation].state)
    && Continues(d.transitions[journal.operation], journal)
  }

  lemma BegunContinues(d: Disk, session: Transition)
    requires Keyed(d) && T.BegunTransition(d, session).Some?
    ensures SessionContinued(d, session, T.BegunTransition(d, session).value)
  {
  }

  lemma CompletedContinues(d: Disk, session: Transition, attempt: T.TransitionAttempt, result: T.TransitionResult)
    requires Keyed(d) && T.CompletedTransition(d, session, attempt, result).Some?
    ensures SessionContinued(d, session, T.CompletedTransition(d, session, attempt, result).value)
  {
  }

  lemma ReconciledContinues(d: Disk, session: Transition, observation: T.TransitionObservation)
    requires Keyed(d) && T.ReconciledTransition(d, session, observation).Some?
    ensures SessionContinued(d, session, T.ReconciledTransition(d, session, observation).value)
  {
  }

  lemma SessionContinues(s: Store, e: Event)
    requires IsSessionStep(e) && SessionWrites(s, e).Some?
    requires Keyed(s.disk)
    ensures SessionContinued(s.disk, s.sessions[e.t], SessionWrites(s, e).value)
    ensures Step(s, e) == Journaled(s, e.t, Some(SessionWrites(s, e).value))
  {
    match e
    case BeginTransition(t) => BegunContinues(s.disk, s.sessions[t]);
    case CompleteTransition(t, attempt, result) => CompletedContinues(s.disk, s.sessions[t], attempt, result);
    case ReconcileTransition(t, observation) => ReconciledContinues(s.disk, s.sessions[t], observation);
  }

  lemma SessionKeeps(s: Store, e: Event)
    requires Inv(s) && IsSessionStep(e)
    ensures Inv(Step(s, e))
  {
    if SessionWrites(s, e).Some? {
      assert forall op :: op in s.disk.transitions ==> Pinned(s, op);
      SessionContinues(s, e);
      JournaledKeeps(s, e.t, SessionWrites(s, e).value);
    }
  }

  /** Handing out a copy of a stored record. */
  lemma OpenedKeeps(s: Store, h: nat, id: Id)
    requires Inv(s) && id in s.disk.records
    ensures Inv(s.(handles := s.handles[h := s.disk.records[id]]))
  {
    assert RegistryMatches(s.disk) && id in s.used;
    IdleKeeps(s, s.(handles := s.handles[h := s.disk.records[id]]));
  }

  lemma ClosedKeeps(s: Store, h: nat)
    requires Inv(s)
    ensures Inv(s.(handles := s.handles - {h}))
  {
    IdleKeeps(s, s.(handles := s.handles - {h}));
  }

  lemma ResumeView(s: Store, m: nat, t: nat, did: Did)
    ensures var end := ResumeStep(s, m, t, did); end == s.(managers := end.managers, sessions := end.sessions)
  {
  }

  lemma ViewStepKeeps(s: Store, e: Event)
    requires Inv(s) && (e.OpenStore? || e.OpenIdentity? || e.Reload? || e.Close? || e.ResumeTransition?)
    ensures Inv(Step(s, e))
  {
    match e
    case OpenStore(m) => ViewKeeps(s, Refreshed(s, m));
    case OpenIdentity(h, did) =>
      if Opens(s.disk, did) {
        OpenedKeeps(s, h, s.disk.registry.identities[did].id);
      }
    case Reload(h) =>
      if && h in s.handles && Opens(s.disk, s.handles[h].did)
         && s.disk.registry.identities[s.handles[h].did].id == s.handles[h].id
      {
        OpenedKeeps(s, h, s.handles[h].id);
      }
    case Close(h) => ClosedKeeps(s, h);
    case ResumeTransition(m, t, did) =>
      ResumeView(s, m, t, did);
      ViewKeeps(s, ResumeStep(s, m, t, did));
  }

  /** Every step keeps the invariant. */
  lemma StepKeeps(s: Store, e: Event)
    requires Inv(s)
    ensures Inv(Step(s, e))
  {
    match e
    case Ask(_, _, _) => AskKeeps(s, e);
    case Bring(_, _, _, _, _, _) => BringKeeps(s, e);
    case Remove(_, _, _, _, _) => LeavingKeeps(s, e);
    case Discard(_, _, _, _, _, _) => LeavingKeeps(s, e);
    case PrepareTransition(_, _, _, _) => PrepareTransitionKeeps(s, e);
    case BeginTransition(_) => SessionKeeps(s, e);
    case CompleteTransition(_, _, _) => SessionKeeps(s, e);
    case ReconcileTransition(_, _) => SessionKeeps(s, e);
    case _ => ViewStepKeeps(s, e);
  }

  lemma EmptyInv()
    ensures Inv(Empty())
  {
  }

  /** Every state of every run keeps the invariant. */
  lemma {:induction false} RunKeeps(s: Store, events: seq<Event>)
    requires Inv(s)
    ensures Inv(Run(s, events))
  {
    if events != [] {
      RunKeeps(s, events[..|events| - 1]);
      StepKeeps(Run(s, events[..|events| - 1]), events[|events| - 1]);
    }
  }
}
