/**
 The store as a transition system: any number of handles, store managers and transition sessions, in
 any number of processes, act one after the other under the store lock. Any operation may die after
 any of its writes, and the recovery that follows may be interrupted any number of times before the
 store is used again.

 `used`, `bases` and `pins` are history the store itself does not keep: the identifiers ever drawn,
 the document each revision was built from, and the two records each transition was prepared on.
 */
module Runs {
  import opened Model
  import opened Writes
  import opened Recovery
  import opened CrashAtomicity
  import opened Engine
  import opened EngineLaws
  import opened Births
  import T = Transitions

  /** Whether an operation completes or dies after so many writes. */
  datatype Fate = Completes | Dies(after: nat, interruptions: seq<nat>)

  datatype Pin = Pin(predecessor: Record, successor: Record)

  datatype Store = Store(
    disk: Disk, handles: map<nat, Record>, managers: map<nat, nat>, sessions: map<nat, Transition>,
    used: set<Id>, bases: map<Id, Document>, pins: map<string, Pin>)

  datatype Event =
    | OpenStore(m: nat)
    | OpenIdentity(h: nat, did: Did)
    | Reload(h: nat)
    | Close(h: nat)
    | Ask(h: nat, request: Request, fate: Fate)
    | Bring(m: nat, h: nat, id: Id, birth: Birth, tx: Id, fate: Fate)
    | Remove(m: nat, did: Did, expected: nat, tx: Id, fate: Fate)
    | Discard(m: nat, did: Did, id: Id, expected: nat, tx: Id, fate: Fate)
    | PrepareTransition(m: nat, t: nat, proposal: T.TransitionRequest, setting: T.TransitionSetting)
    | ResumeTransition(m: nat, t: nat, did: Did)
    | BeginTransition(t: nat)
    | CompleteTransition(t: nat, attempt: T.TransitionAttempt, result: T.TransitionResult)
    | ReconcileTransition(t: nat, observation: T.TransitionObservation)

  // Carrying out a change

  predicate Plannable(d: Disk, c: Change) {
    && (c.Prepare? ==> c.record.pending.Some?)
    && (c.Cleanup? ==> c.record.id in d.records && d.records[c.record.id].pending.Some?)
    && (c.Delete? ==> c.identity in d.records)
  }

  /** The disk a change leaves, once recovery has run if the operation died. */
  ghost function Land(d: Disk, c: Change, fate: Fate): Disk
    requires Plannable(d, c)
  {
    var ws := ChangeWrites(d, c);
    match fate
    case Completes => ApplyAll(d, ws)
    case Dies(k, interruptions) =>
      Recovered(Interrupted(ApplyAll(d, ws[..if k < |ws| then k else |ws|]), interruptions))
  }

  lemma LandSettles(d: Disk, c: Change, fate: Fate)
    requires Consistent(d) && Admissible(d, c)
    ensures Plannable(d, c) && Settles(d, c, Land(d, c, fate)) && Consistent(Land(d, c, fate))
    ensures fate.Completes? ==> Land(d, c, fate) == After(d, c)
  {
    match fate
    case Completes =>
      ChangeCompletes(d, c);
      AfterConsistent(d, c);
    case Dies(k, interruptions) =>
      var ws := ChangeWrites(d, c);
      CrashedChangeSettles(d, c, if k < |ws| then k else |ws|, interruptions);
  }

  lemma RespondPlannable(d: Disk, mine: Record, request: Request, c: Change)
    requires Respond(d, mine, request) == Make(c)
    ensures Plannable(d, c) && !c.Delete?
  {
  }

  // The steps

  /** The store once a change asked for has been carried out. A dead process loses its handle. */
  ghost function Carried(s: Store, h: nat, request: Request, fate: Fate, c: Change): Store
    requires h in s.handles && Plannable(s.disk, c) && !c.Delete?
  {
    var noted := if !request.Propose? then s
      else s.(used := s.used + {request.revision}, bases := s.bases[request.revision := s.handles[h].document]);
    noted.(
      disk := Land(s.disk, c, fate),
      handles := if fate.Completes? then s.handles[h := c.record] else s.handles - {h})
  }

  /** A request through a handle. */
  ghost function AskStep(s: Store, h: nat, request: Request, fate: Fate): Store {
    if h !in s.handles || (request.Propose? && request.revision in s.used) then s
    else
      var mine := s.handles[h];
      match Respond(s.disk, mine, request)
      case Refusal => s
      case NoChange => s
      case Make(c) =>
        RespondPlannable(s.disk, mine, request, c);
        Carried(s, h, request, fate, c)
  }

  /** A new identity, under the registry generation the manager has seen. */
  ghost predicate CanBring(s: Store, m: nat, id: Id, birth: Birth) {
    && m in s.managers && s.managers[m] == s.disk.registry.generation
    && birth.document.did !in s.disk.registry.identities
    && id !in s.used && Born(id, birth).Some?
  }

  ghost function BringStep(s: Store, m: nat, h: nat, id: Id, birth: Birth, tx: Id, fate: Fate): Store {
    if !CanBring(s, m, id, birth) then s
    else
      var record := Born(id, birth).value;
      var disk := Land(s.disk, Found(tx, record), fate);
      s.(disk := disk, used := s.used + {id},
         handles := if fate.Completes? then s.handles[h := record] else s.handles,
         managers := if fate.Completes? then s.managers[m := disk.registry.generation] else s.managers - {m})
  }

  /** The identity a deletion may remove under the expected registry generation. */
  predicate CanRemove(s: Store, m: nat, did: Did, expected: nat) {
    && m in s.managers && s.managers[m] == expected && s.disk.registry.generation == expected
    && did in s.disk.registry.identities
    && var id := s.disk.registry.identities[did].id;
    && CanRead(s.disk, id) && s.disk.records[id].did == did
  }

  /** A deletion that already took effect is reported as done. */
  predicate AlreadyRemoved(s: Store, m: nat, did: Did, expected: nat) {
    && m in s.managers && !(s.managers[m] == expected && s.disk.registry.generation == expected)
    && did !in s.disk.registry.identities && s.disk.registry.generation == expected + 1
  }

  ghost function RemoveStep(s: Store, m: nat, id: Id, tx: Id, fate: Fate): Store
    requires id in s.disk.records
  {
    var disk := Land(s.disk, Delete(tx, id), fate);
    s.(disk := disk,
       managers := if fate.Completes? then s.managers[m := disk.registry.generation] else s.managers - {m})
  }

  function Refreshed(s: Store, m: nat): Store {
    s.(managers := s.managers[m := s.disk.registry.generation])
  }

  /** Writing a transition journal is a single write; the session keeps what it wrote. */
  function Journaled(s: Store, t: nat, journal: Option<Transition>): Store {
    if journal.None? then s
    else s.(disk := s.disk.(transitions := s.disk.transitions[journal.value.operation := journal.value]),
            sessions := s.sessions[t := journal.value])
  }

  function PrepareTransitionStep(s: Store, m: nat, t: nat, proposal: T.TransitionRequest,
                                 setting: T.TransitionSetting): Store {
    if m !in s.managers then s
    else
      var journal := T.PreparedTransition(s.disk, s.managers[m], proposal, setting);
      if journal.None? then s
      else if proposal.operation in s.disk.transitions then s.(sessions := s.sessions[t := journal.value])
      else
        var j := journal.value;
        Journaled(s, t, journal).(
          pins := s.pins[j.operation := Pin(s.disk.records[j.predecessorId], s.disk.records[j.successorId])])
  }

  ghost function ResumeStep(s: Store, m: nat, t: nat, did: Did): Store {
    var open := T.OpenJournals(s.disk, did);
    if open == {} || |open| > 1 then Refreshed(s, m)
    else
      var op :| op in open;
      Refreshed(s, m).(sessions := s.sessions[t := s.disk.transitions[op]])
  }

  ghost function Step(s: Store, e: Event): Store {
    match e
    case OpenStore(m) => Refreshed(s, m)
    case OpenIdentity(h, did) =>
      if !Opens(s.disk, did) then s
      else s.(handles := s.handles[h := s.disk.records[s.disk.registry.identities[did].id]])
    case Reload(h) =>
      if h !in s.handles || !Opens(s.disk, s.handles[h].did) then s
      else if s.disk.registry.identities[s.handles[h].did].id != s.handles[h].id then s
      else s.(handles := s.handles[h := s.disk.records[s.handles[h].id]])
    case Close(h) => s.(handles := s.handles - {h})
    case Ask(h, request, fate) => AskStep(s, h, request, fate)
    case Bring(m, h, id, birth, tx, fate) => BringStep(s, m, h, id, birth, tx, fate)
    case Remove(m, did, expected, tx, fate) =>
      if AlreadyRemoved(s, m, did, expected) then Refreshed(s, m)
      else if !CanRemove(s, m, did, expected) then s
      else
        var id := s.disk.registry.identities[did].id;
        if !Deletable(s.disk.records[id]) then s else RemoveStep(s, m, id, tx, fate)
    case Discard(m, did, id, expected, tx, fate) =>
      if !CanRemove(s, m, did, expected) || s.disk.registry.identities[did].id != id then s
      else if !Discardable(s.disk.records[id]) then s
      else RemoveStep(s, m, id, tx, fate)
    case PrepareTransition(m, t, proposal, setting) => PrepareTransitionStep(s, m, t, proposal, setting)
    case ResumeTransition(m, t, did) => ResumeStep(s, m, t, did)
    case BeginTransition(t) => if t !in s.sessions then s else Journaled(s, t, T.BegunTransition(s.disk, s.sessions[t]))
    case CompleteTransition(t, attempt, result) =>
      if t !in s.sessions then s else Journaled(s, t, T.CompletedTransition(s.disk, s.sessions[t], attempt, result))
    case ReconcileTransition(t, observation) =>
      if t !in s.sessions then s else Journaled(s, t, T.ReconciledTransition(s.disk, s.sessions[t], observation))
  }

  ghost function Run(s: Store, events: seq<Event>): Store {
    if events == [] then s else Step(Run(s, events[..|events| - 1]), events[|events| - 1])
  }

  /** A new store holds nothing. */
  function Empty(): Store {
    Store(Disk(Registry(0, map[]), map[], {}, map[], map[], map[]), map[], map[], map[], {}, map[], map[])
  }

  // The invariant of every run

  /** A copy of a record is never newer than the stored one, and of the same generation only if it is the same. */
  ghost predicate Coheres(copy: Record, d: Disk) {
    copy.id in d.records ==>
      && copy.generation <= d.records[copy.id].generation
      && (copy.generation == d.records[copy.id].generation ==> copy == d.records[copy.id])
  }

  /** A pending revision that could still commit was built from the document that is current. */
  ghost predicate BaseKept(s: Store, r: Record) {
    r.pending.Some? ==>
      && r.pending.value.id in s.used
      && r.pending.value.id in s.bases
      && (r.pending.value.parent == r.revision ==> r.document == s.bases[r.pending.value.id])
  }

  ghost predicate RecordsKept(s: Store) {
    forall id :: id in s.disk.records ==> id in s.used && Kept(s.disk.records[id]) && BaseKept(s, s.disk.records[id])
  }

  predicate SameWait(a: Record, b: Record) {
    a.pending.Some? && b.pending.Some? && a.pending.value.id == b.pending.value.id
  }

  /** No two identities wait for the same revision. */
  ghost predicate RevisionsApart(d: Disk) {
    forall a, b :: a in d.records && b in d.records && SameWait(d.records[a], d.records[b]) ==> a == b
  }

  ghost predicate HandlesCohere(s: Store) {
    forall h :: h in s.handles ==> s.handles[h].id in s.used && Coheres(s.handles[h], s.disk)
  }

  /** A transition journal is pinned to the two records it was prepared on. */
  ghost predicate Pinned(s: Store, op: string)
    requires op in s.disk.transitions
  {
    var t := s.disk.transitions[op];
    && t.operation == op && op in s.pins
    && var pin := s.pins[op];
    && pin.predecessor.id == t.predecessorId && pin.predecessor.generation == t.predecessorGeneration
    && pin.successor.id == t.successorId && pin.successor.generation == t.successorGeneration
    && t.predecessorId in s.used && t.successorId in s.used
    && Coheres(pin.predecessor, s.disk) && Coheres(pin.successor, s.disk)
  }

  predicate Rivals(a: Transition, b: Transition) {
    a.predecessorDid == b.predecessorDid && a.state != TAborted && b.state != TAborted
  }

  /** At most one journal of a predecessor has not been aborted. */
  ghost predicate NoFork(d: Disk) {
    forall a, b :: a in d.transitions && b in d.transitions && Rivals(d.transitions[a], d.transitions[b]) ==> a == b
  }

  ghost predicate Inv(s: Store) {
    && Consistent(s.disk)
    && RecordsKept(s)
    && RevisionsApart(s.disk)
    && HandlesCohere(s)
    && (forall op :: op in s.disk.transitions ==> Pinned(s, op))
    && NoFork(s.disk)
  }
}
