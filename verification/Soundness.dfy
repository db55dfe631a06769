/**
 Consistency of a record over whole runs: the document, the key ids and what the pending revision
 would make of them stay sound as long as no request reuses an id and no remote document that is
 adopted contradicts the local keys, and not a step longer.
 */
module Soundness {
  import opened Model
  import opened CrashAtomicity
  import opened Candidate
  import opened Adoption
  import opened CandidateConsistency
  import opened Engine
  import opened EngineLaws
  import opened Births
  import opened Runs
  import opened RunLaws
  import opened StoreSafety

  /** The record is sound, and stays so if its pending revision commits. */
  ghost predicate SoundRecord(r: Record) {
    && Sound(r.document, r.keys)
    && (r.pending.Some? ==>
          Sound(r.pending.value.candidate, RetireAll(r.keys, r.pending.value.retiredKids) + r.pending.value.newKeys))
  }

  // Soundness depends on the ids and roles of the keys alone

  predicate SameIds(keys: seq<KeyMetadata>, other: seq<KeyMetadata>) {
    |keys| == |other| && forall i :: 0 <= i < |keys| ==> other[i].kid == keys[i].kid && other[i].role == keys[i].role
  }

  lemma SoundCarries(document: Document, keys: seq<KeyMetadata>, other: seq<KeyMetadata>)
    requires SameIds(keys, other) && Sound(document, keys)
    ensures Sound(document, other)
  {
    assert KidList(other) == KidList(keys);
    forall key | key in other && key.role == RequestSigning
      ensures exists k :: k in keys && k.role == RequestSigning && k.kid == key.kid
    {
      var i :| 0 <= i < |other| && other[i] == key;
      assert keys[i] in keys;
    }
  }

  lemma SameIdsSound(document: Document, keys: seq<KeyMetadata>, other: seq<KeyMetadata>)
    requires SameIds(keys, other)
    ensures Sound(document, keys) <==> Sound(document, other)
  {
    if Sound(document, keys) {
      SoundCarries(document, keys, other);
    }
    if Sound(document, other) {
      SoundCarries(document, other, keys);
    }
  }

  /** A pending revision commits to the same ids, whatever states and origins the keys are in. */
  lemma SameIdsAfter(keys: seq<KeyMetadata>, other: seq<KeyMetadata>, retired: seq<Kid>, more: seq<KeyMetadata>)
    requires SameIds(keys, other)
    ensures SameIds(RetireAll(keys, retired) + more, RetireAll(other, retired) + more)
  {
  }

  // One request

  /**
   What a caller can check before the call: a proposal reuses no id, and a remote document is coherent
   with the keys the record holds.
   */
  ghost predicate KeepsSound(mine: Record, request: Request) {
    match request
    case Propose(_, spec, _) => ReusesNothing(mine.document, spec)
    case AdoptDocument(document, _, _, _, _) => Coherent(document, mine.keys)
    case ConfirmRoot(document, _, _, _) => Coherent(document, mine.keys)
    case _ => true
  }

  lemma ProposedSoundIff(r: Record, revision: Id, spec: UpdateSpec, setting: Setting, q: Record)
    requires Proposed(r, revision, spec, setting) == Some(q) && SoundRecord(r)
    ensures SoundRecord(q) <==> ReusesNothing(r.document, spec)
  {
    CandidateCoherentIff(r, spec, setting);
    assert q.pending.value.candidate == Build(r, spec, setting).value.document;
  }

  lemma CommittedSound(r: Record, revision: Id, fromReconcile: bool, evidence: Evidence, valid: bool, q: Record)
    requires Committed(r, revision, fromReconcile, Some(evidence), valid) == Some(q) && SoundRecord(r)
    ensures SoundRecord(q)
  {
    CommittedIs(r, revision, fromReconcile, Some(evidence), valid, q);
  }

  lemma AdoptedSoundIff(r: Record, document: Document, evidence: Evidence, sibling: bool, open: bool, q: Record)
    requires Adopt(r, document, evidence, sibling, open) == Adopted(q) && SoundRecord(r)
    ensures SoundRecord(q) <==> Coherent(document, r.keys)
  {
    var judged := Judged(r, document).value;
    JudgedKeys(r, document, judged);
    RefreshKeeps(judged, document);
    assert q.keys == judged.keys && q.document == document;
    SameIdsSound(document, r.keys, q.keys);
  }

  lemma ImportedSound(r: Record, kid: Kid, matches: bool, nonce: string, transfer: string, tx: Id, c: Change)
    requires ImportedRoot(r, kid, matches, nonce, transfer, tx) == Make(c) && SoundRecord(r)
    ensures (c.Transit? || c.Import?) && SoundRecord(c.record)
  {
    SameIdsSound(r.document, r.keys, c.record.keys);
  }

  lemma PromotedSoundIff(r: Record, document: Document, evidence: Evidence, tx: Id, c: Change)
    requires Promoted(r, document, evidence, tx) == Make(c) && SoundRecord(r)
    ensures c.Transit? && (SoundRecord(c.record) <==> Coherent(document, r.keys))
  {
    SameIdsSound(document, r.keys, c.record.keys);
    if r.pending.Some? {
      var p := r.pending.value;
      SameIdsAfter(r.keys, c.record.keys, p.retiredKids, p.newKeys);
      SameIdsSound(p.candidate, RetireAll(r.keys, p.retiredKids) + p.newKeys,
                   RetireAll(c.record.keys, p.retiredKids) + p.newKeys);
    }
  }

  lemma CompletedSound(d: Disk, mine: Record, request: Request, c: Change)
    requires request.Complete? && Respond(d, mine, request) == Make(c) && Stored(d, mine) == Some(mine)
    requires SoundRecord(mine)
    ensures c.Persist? && SoundRecord(c.record)
  {
    if request.result.Confirmed? {
      CommittedSound(mine, request.session.operation, false, request.result.evidence, request.result.valid, c.record);
    }
  }

  lemma ReconciledSound(d: Disk, mine: Record, request: Request, c: Change)
    requires request.Reconcile? && Respond(d, mine, request) == Make(c) && Stored(d, mine) == Some(mine)
    requires SoundRecord(mine)
    ensures c.Persist? && SoundRecord(c.record)
  {
    SessionCommitsOnEvidence(d, mine, request.session, request.document, request.evidence, request.valid, c);
    if c.record.pending.None? {
      CommittedSound(mine, request.session.operation, true, request.evidence, request.valid, c.record);
    }
  }

  lemma OthersSound(d: Disk, mine: Record, request: Request, c: Change)
    requires request.Begin? || request.ReconcileRejected? || request.Abort?
    requires Respond(d, mine, request) == Make(c) && Stored(d, mine) == Some(mine) && SoundRecord(mine)
    ensures (c.Persist? || c.Cleanup?) && SoundRecord(c.record)
  {
  }

  /** Exactly when a request leaves a sound record sound, its pending revision included. */
  lemma RequestSoundIff(d: Disk, mine: Record, request: Request, c: Change)
    requires UpToDate(d, mine) && Respond(d, mine, request) == Make(c) && SoundRecord(mine)
    ensures !c.Found? && !c.Delete? && (SoundRecord(c.record) <==> KeepsSound(mine, request))
  {
    assert Stored(d, mine) == Some(mine);
    match request
    case Propose(revision, spec, setting) => ProposedSoundIff(mine, revision, spec, setting, c.record);
    case Complete(_, _, _) => CompletedSound(d, mine, request, c);
    case Reconcile(_, _, _, _) => ReconciledSound(d, mine, request, c);
    case AdoptDocument(document, evidence, _, sibling, _) =>
      AdoptedSoundIff(mine, document, evidence, sibling, TransitionOpen(d, mine.id), c.record);
    case ImportRootKey(envelope, _, matches, tx) =>
      ImportedSound(mine, envelope.root, matches, envelope.nonce, envelope.digest, tx, c);
    case ConfirmRoot(document, evidence, _, tx) => PromotedSoundIff(mine, document, evidence, tx, c);
    case _ => OthersSound(d, mine, request, c);
  }

  /** Exactly when a new identity starts sound: a remote document is coherent, a created one also with its keys. */
  lemma BornSoundIff(id: Id, birth: Birth)
    requires Born(id, birth).Some?
    ensures SoundRecord(Born(id, birth).value) <==> Coherent(birth.document, if birth.Creation? then birth.keys else [])
  {
    var r := Born(id, birth).value;
    BornDistinct(id, birth);
    if birth.RequestEnrollment? && Coherent(birth.document, []) {
      forall device | device in birth.document.Devices()
        ensures birth.kid != device.signing && birth.kid != device.e2ee
      {
        assert Anchored(birth.document, device);
      }
      forall key | key in r.keys && key.role == RequestSigning
        ensures key.kid == birth.kid
      {
      }
    }
  }

  // Whole runs

  ghost predicate SoundAt(s: Store, id: Id) {
    id in s.disk.records ==> SoundRecord(s.disk.records[id])
  }

  /** The event changes the record of the identity only as a request that keeps it sound. */
  ghost predicate SoundEvent(s: Store, e: Event, id: Id) {
    Changed(s.disk, Step(s, e).disk, id) ==> e.Ask? && KeepsSound(s.disk.records[id], e.request)
  }

  lemma LandedSoundIff(d: Disk, mine: Record, request: Request, c: Change, end: Disk, id: Id)
    requires UpToDate(d, mine) && Respond(d, mine, request) == Make(c)
    requires !c.Found? && !c.Delete? && c.record.id == mine.id
    requires end.records == d.records || end.records == d.records[c.record.id := c.record]
    requires id in d.records && SoundRecord(d.records[id])
    ensures id in end.records
    ensures SoundRecord(end.records[id]) <==> (Changed(d, end, id) ==> KeepsSound(d.records[id], request))
  {
    if Changed(d, end, id) {
      RequestSoundIff(d, mine, request, c);
    }
  }

  lemma AskSoundIff(s: Store, e: Event, id: Id)
    requires Inv(s) && e.Ask? && id in s.disk.records && SoundRecord(s.disk.records[id])
    ensures SoundAt(Step(s, e), id) <==> SoundEvent(s, e, id)
  {
    if Proceeds(s, e) {
      var c := Respond(s.disk, s.handles[e.h], e.request).change;
      AskUpdates(s, e, c);
      LandedSoundIff(s.disk, s.handles[e.h], e.request, c, Step(s, e).disk, id);
    } else {
      AskIdle(s, e);
    }
  }

  lemma StepSoundIff(s: Store, e: Event, id: Id)
    requires Inv(s) && id in s.used && SoundAt(s, id)
    ensures SoundAt(Step(s, e), id) <==> SoundEvent(s, e, id)
  {
    if id !in s.disk.records {
      GoneStaysGone(s, e, id);
    } else if e.Ask? {
      AskSoundIff(s, e, id);
    } else {
      StepOnRecord(s, e, id);
    }
  }

  /** The record is sound in every state of the run. */
  ghost predicate SoundThroughout(s: Store, events: seq<Event>, id: Id) {
    SoundAt(Run(s, events), id) && (events == [] || SoundThroughout(s, events[..|events| - 1], id))
  }

  ghost predicate SoundEvents(s: Store, events: seq<Event>, id: Id) {
    events == []
    || (var front := events[..|events| - 1];
        SoundEvents(s, front, id) && SoundEvent(Run(s, front), events[|events| - 1], id))
  }

  /**
   Soundness over runs: from any state with a sound record, the record is sound in every state of a run
   if and only if every request that changes it in the run keeps it sound. Crashes, interrupted
   recoveries, other identities and every other request can do no harm.
   */
  lemma {:induction false} RunSoundIff(s: Store, events: seq<Event>, id: Id)
    requires Inv(s) && id in s.used && SoundAt(s, id)
    ensures SoundThroughout(s, events, id) <==> SoundEvents(s, events, id)
  {
    if events != [] {
      var front := events[..|events| - 1];
      RunSoundIff(s, front, id);
      if SoundThroughout(s, front, id) {
        RunKeeps(s, front);
        UsedThroughout(s, front, id);
        StepSoundIff(Run(s, front), events[|events| - 1], id);
      }
    }
  }
}
