/**
 The memory of devices: a device that leaves the document is retired, and a retired device is never
 listed again. Every request keeps this except the confirmation of a root promotion, which takes
 over the remote document without comparing devices.
 */
module DeviceMemory {
  import opened Model
  import opened CrashAtomicity
  import opened Adoption
  import opened Engine
  import opened EngineLaws
  import opened Runs
  import opened RunLaws
  import opened StoreSafety

  /** No retired device is listed. */
  predicate RetiredApart(r: Record) {
    r.retiredDevices !! DeviceIds(r.document)
  }

  /** Every device listed before is still listed or retired. */
  predicate Accounted(r: Record, q: Record) {
    DeviceIds(r.document) <= q.retiredDevices + DeviceIds(q.document)
  }

  /** What accepting a document through the device check does to the memory. */
  predicate Observes(r: Record, q: Record) {
    r.retiredDevices <= q.retiredDevices && Accounted(r, q) && (RetiredApart(r) ==> RetiredApart(q))
  }

  lemma ObservesAgain(r: Record, q: Record, p: Record)
    requires Observes(r, q) && Observes(q, p)
    ensures Observes(r, p)
  {
  }

  // One request

  lemma CommittedObserves(r: Record, revision: Id, fromReconcile: bool, evidence: Evidence, valid: bool, q: Record)
    requires Committed(r, revision, fromReconcile, Some(evidence), valid) == Some(q)
    ensures Observes(r, q)
  {
    CommittedIs(r, revision, fromReconcile, Some(evidence), valid, q);
    ObservedLaw(r, r.pending.value.candidate, q.retiredDevices);
  }

  lemma CompletedObserves(d: Disk, mine: Record, request: Request, c: Change)
    requires Stored(d, mine) == Some(mine) && request.Complete? && Respond(d, mine, request) == Make(c)
    ensures c.Persist? && Observes(mine, c.record)
  {
    if request.result.Confirmed? {
      CommittedObserves(mine, request.session.operation, false, request.result.evidence, request.result.valid,
                        c.record);
    }
  }

  lemma ReconciledObserves(d: Disk, mine: Record, request: Request, c: Change)
    requires Stored(d, mine) == Some(mine) && request.Reconcile? && Respond(d, mine, request) == Make(c)
    ensures c.Persist? && Observes(mine, c.record)
  {
    SessionCommitsOnEvidence(d, mine, request.session, request.document, request.evidence, request.valid, c);
    if c.record.pending.None? {
      CommittedObserves(mine, request.session.operation, true, request.evidence, request.valid, c.record);
    }
  }

  lemma AdoptedObserves(d: Disk, mine: Record, request: Request, c: Change)
    requires Stored(d, mine) == Some(mine) && request.AdoptDocument? && Respond(d, mine, request) == Make(c)
    ensures (c.Persist? || c.Transit?) && Observes(mine, c.record)
  {
    ObservedLaw(mine, request.document, c.record.retiredDevices);
  }

  lemma OthersObserve(d: Disk, mine: Record, request: Request, c: Change)
    requires || request.Propose? || request.Begin? || request.ReconcileRejected? || request.Abort?
             || request.ImportRootKey?
    requires Respond(d, mine, request) == Make(c) && Stored(d, mine) == Some(mine)
    ensures !c.Found? && !c.Delete? && Observes(mine, c.record)
  {
  }

  /** Every request but the confirmation of a promotion goes through the device check, or leaves the devices alone. */
  lemma RequestObserves(d: Disk, mine: Record, request: Request, c: Change)
    requires UpToDate(d, mine) && Respond(d, mine, request) == Make(c) && !request.ConfirmRoot?
    ensures !c.Found? && !c.Delete? && Observes(mine, c.record)
  {
    assert Stored(d, mine) == Some(mine);
    match request
    case Complete(_, _, _) => CompletedObserves(d, mine, request, c);
    case Reconcile(_, _, _, _) => ReconciledObserves(d, mine, request, c);
    case AdoptDocument(_, _, _, _, _) => AdoptedObserves(d, mine, request, c);
    case _ => OthersObserve(d, mine, request, c);
  }

  lemma PromotionIs(d: Disk, mine: Record, request: Request, c: Change)
    requires request.ConfirmRoot? && Respond(d, mine, request) == Make(c) && Stored(d, mine) == Some(mine)
    ensures c.Transit? && c.record.retiredDevices == mine.retiredDevices && c.record.document == request.document
  {
  }

  /** A promotion revives a device: its document lists a retired one. */
  predicate Revives(mine: Record, request: Request) {
    request.ConfirmRoot? && mine.retiredDevices * DeviceIds(request.document) != {}
  }

  /** A promotion forgets a device: its document drops one that no one then remembers. */
  predicate Forgets(mine: Record, request: Request) {
    request.ConfirmRoot? && !(DeviceIds(mine.document) <= mine.retiredDevices + DeviceIds(request.document))
  }

  /**
   For identities of any method, a request keeps every retired device unlisted, unless it is a
   promotion that revives one.
   */
  lemma DevicesRememberedIff(d: Disk, mine: Record, request: Request, c: Change)
    requires UpToDate(d, mine) && Respond(d, mine, request) == Make(c) && RetiredApart(mine)
    ensures !c.Found? && !c.Delete? && (RetiredApart(c.record) <==> !Revives(mine, request))
  {
    if request.ConfirmRoot? {
      PromotionIs(d, mine, request, c);
      var retired, ids := mine.retiredDevices, DeviceIds(request.document);
      assert forall id :: id in retired && id in ids ==> id in retired * ids;
    } else {
      RequestObserves(d, mine, request, c);
    }
  }

  /**
   For identities of any method, a request retires every device it drops, unless it is a promotion that
   forgets one.
   */
  lemma DevicesAccountedIff(d: Disk, mine: Record, request: Request, c: Change)
    requires UpToDate(d, mine) && Respond(d, mine, request) == Make(c)
    ensures !c.Found? && !c.Delete? && (Accounted(mine, c.record) <==> !Forgets(mine, request))
  {
    if request.ConfirmRoot? {
      PromotionIs(d, mine, request, c);
    } else {
      RequestObserves(d, mine, request, c);
    }
  }

  // Whole runs

  /** The event neither revives nor forgets a device of the identity. */
  ghost predicate Faithful(s: Store, e: Event, id: Id) {
    Changed(s.disk, Step(s, e).disk, id) ==>
      e.Ask? && !Revives(s.disk.records[id], e.request) && !Forgets(s.disk.records[id], e.request)
  }

  ghost predicate FaithfulEvents(s: Store, events: seq<Event>, id: Id) {
    events == []
    || (var front := events[..|events| - 1];
        FaithfulEvents(s, front, id) && Faithful(Run(s, front), events[|events| - 1], id))
  }

  /** The step of the identity's record, if it has one, goes as the device check would have it. */
  ghost predicate StepObserves(s: Store, e: Event, id: Id) {
    Changed(s.disk, Step(s, e).disk, id) ==> Observes(s.disk.records[id], Step(s, e).disk.records[id])
  }

  ghost predicate StepsObserve(s: Store, events: seq<Event>, id: Id) {
    events == []
    || (var front := events[..|events| - 1];
        StepsObserve(s, front, id) && StepObserves(Run(s, front), events[|events| - 1], id))
  }

  lemma StepFaithfulIff(s: Store, e: Event, id: Id)
    requires Inv(s) && (id in s.disk.records ==> RetiredApart(s.disk.records[id]))
    ensures StepObserves(s, e, id) <==> Faithful(s, e, id)
  {
    if Changed(s.disk, Step(s, e).disk, id) {
      StepOnRecord(s, e, id);
      if Proceeds(s, e) {
        var mine := s.handles[e.h];
        var c := Respond(s.disk, mine, e.request).change;
        AskUpdates(s, e, c);
        DevicesRememberedIff(s.disk, mine, e.request, c);
        DevicesAccountedIff(s.disk, mine, e.request, c);
      } else {
        AskIdle(s, e);
      }
    }
  }

  /** Over a run whose every step observes, so does the whole run. */
  lemma {:induction false} RunObserves(s: Store, events: seq<Event>, id: Id)
    requires Inv(s) && id in s.disk.records && id in Run(s, events).disk.records && StepsObserve(s, events, id)
    ensures Observes(s.disk.records[id], Run(s, events).disk.records[id])
  {
    if events != [] {
      var front := events[..|events| - 1];
      PresentThroughout(s, events, id);
      RunObserves(s, front, id);
      ObservesAgain(s.disk.records[id], Run(s, front).disk.records[id], Run(s, events).disk.records[id]);
    }
  }

  /**
   Exactly when the memory holds over a run, for identities of any method: every step of it retires the
   devices it drops and lists no retired one, if and only if no promotion in the run revives or
   forgets a device.
   */
  lemma {:induction false} RunFaithfulIff(s: Store, events: seq<Event>, id: Id)
    requires Inv(s) && id in s.disk.records && RetiredApart(s.disk.records[id])
    ensures StepsObserve(s, events, id) <==> FaithfulEvents(s, events, id)
  {
    if events != [] {
      var front := events[..|events| - 1];
      RunFaithfulIff(s, front, id);
      if StepsObserve(s, front, id) {
        RunKeeps(s, front);
        if id in Run(s, front).disk.records {
          RunObserves(s, front, id);
        }
        StepFaithfulIff(Run(s, front), events[|events| - 1], id);
      }
    }
  }

  /**
   A device once dropped is retired and never listed again: it is in no document the identity has
   after any further run, as long as no promotion revives or forgets a device.
   */
  lemma DroppedDeviceNeverReturns(s: Store, first: seq<Event>, second: seq<Event>, id: Id, device: string)
    requires Inv(s) && id in s.disk.records && RetiredApart(s.disk.records[id]) && FaithfulEvents(s, first, id)
    requires id in Run(s, first).disk.records && FaithfulEvents(Run(s, first), second, id)
    requires id in Run(Run(s, first), second).disk.records
    requires device in DeviceIds(s.disk.records[id].document)
    requires device !in DeviceIds(Run(s, first).disk.records[id].document)
    ensures device in Run(s, first).disk.records[id].retiredDevices
    ensures device !in DeviceIds(Run(Run(s, first), second).disk.records[id].document)
  {
    FaithfulRun(s, first, id);
    RunKeeps(s, first);
    FaithfulRun(Run(s, first), second, id);
  }

  lemma FaithfulRun(s: Store, events: seq<Event>, id: Id)
    requires Inv(s) && id in s.disk.records && RetiredApart(s.disk.records[id]) && FaithfulEvents(s, events, id)
    requires id in Run(s, events).disk.records
    ensures Observes(s.disk.records[id], Run(s, events).disk.records[id])
  {
    RunFaithfulIff(s, events, id);
    RunObserves(s, events, id);
  }

  // Web identities

  lemma WebStepFaithful(s: Store, e: Event, id: Id)
    requires Inv(s) && (id in s.disk.records ==> s.disk.records[id].did.Web?)
    ensures Faithful(s, e, id)
    ensures id in s.disk.records && id in Step(s, e).disk.records ==> Step(s, e).disk.records[id].did.Web?
  {
    if id in s.disk.records {
      StepOnRecord(s, e, id);
      if Changed(s.disk, Step(s, e).disk, id) && e.request.ConfirmRoot? {
        WebIsNeverPromoted(s, e.h, e.request.document, e.request.evidence, e.request.valid, e.request.tx);
        AskIdle(s, e);
      }
    }
  }

  /** Nothing that happens to a Web identity revives or forgets a device. */
  lemma {:induction false} WebIsFaithful(s: Store, events: seq<Event>, id: Id)
    requires Inv(s) && id in s.disk.records && s.disk.records[id].did.Web?
    ensures FaithfulEvents(s, events, id)
    ensures id in Run(s, events).disk.records ==> Run(s, events).disk.records[id].did.Web?
  {
    if events != [] {
      var front := events[..|events| - 1];
      WebIsFaithful(s, front, id);
      RunKeeps(s, front);
      if id in Run(s, events).disk.records {
        PresentThroughout(s, events, id);
      }
      WebStepFaithful(Run(s, front), events[|events| - 1], id);
    }
  }

  /**
   A Web identity over any run: retired devices stay retired, every device it ever listed is still
   listed or retired, and none that was retired is listed again, now or in a pending candidate.
   */
  lemma RetiredDevicesStayRetired(s: Store, events: seq<Event>, id: Id)
    requires Inv(s) && id in s.disk.records && s.disk.records[id].did.Web? && id in Run(s, events).disk.records
    ensures var r, q := s.disk.records[id], Run(s, events).disk.records[id];
      && r.retiredDevices <= q.retiredDevices
      && DeviceIds(r.document) <= q.retiredDevices + DeviceIds(q.document)
      && r.retiredDevices !! DeviceIds(q.document)
      && (q.pending.Some? ==> r.retiredDevices !! DeviceIds(q.pending.value.candidate))
  {
    assert Kept(s.disk.records[id]);
    WebIsFaithful(s, events, id);
    FaithfulRun(s, events, id);
    RunKeeps(s, events);
    assert Kept(Run(s, events).disk.records[id]);
  }

  /** A device a Web identity has dropped never returns, whatever happens next. */
  lemma WebDropsForGood(s: Store, first: seq<Event>, second: seq<Event>, id: Id, device: string)
    requires Inv(s) && id in s.disk.records && s.disk.records[id].did.Web?
    requires id in Run(s, first).disk.records && id in Run(Run(s, first), second).disk.records
    requires device in DeviceIds(s.disk.records[id].document)
    requires device !in DeviceIds(Run(s, first).disk.records[id].document)
    ensures device in Run(s, first).disk.records[id].retiredDevices
    ensures device !in DeviceIds(Run(Run(s, first), second).disk.records[id].document)
  {
    assert Kept(s.disk.records[id]);
    WebIsFaithful(s, first, id);
    RunKeeps(s, first);
    WebIsFaithful(Run(s, first), second, id);
    DroppedDeviceNeverReturns(s, first, second, id, device);
  }
}
