/**
 Moving a managed identity from one DID to another: a second publication protocol, kept in its own
 journal, which pins the generations of both identity records while it lasts.
 */
module Transitions {
  import opened Model
  import opened Engine

  datatype TransitionRequest = TransitionRequest(
    operation: string, predecessorDid: Did, successorDid: Did, successorId: Id, supplied: Option<Document>)

  /** What the world supplies: the signed transition document, the verdict of the validators, and the assurance. */
  datatype TransitionSetting = TransitionSetting(signed: Document, valid: bool, assurance: string)

  datatype TransitionAttempt = TransitionAttempt(operation: string, predecessor: Digest, successor: Digest,
                                                 generation: nat)

  datatype TransitionResult =
    | TConfirmed(predecessor: Digest, successor: Digest)
    | TRejected
    | TUnknown

  datatype TransitionObservation =
    | RemoteOld(document: Document, valid: bool)
    | RemotePublished(predecessor: Document, successor: Document, valid: bool, assurance: string)

  predicate MatchesRequest(t: Transition, request: TransitionRequest) {
    && t.operation == request.operation
    && t.predecessorDid == request.predecessorDid
    && t.successorDid == request.successorDid
    && t.successorId == request.successorId
    && (request.supplied.Some? ==> Digest(request.supplied.value) == Digest(t.predecessor))
  }

  /** Some journal of the same predecessor has not been aborted. */
  predicate Claimed(d: Disk, did: Did) {
    exists op :: op in d.transitions && d.transitions[op].predecessorDid == did && d.transitions[op].state != TAborted
  }

  /** The two identities exist, are different and are the ones asked for. */
  predicate CanTransit(d: Disk, request: TransitionRequest) {
    && request.predecessorDid in d.registry.identities
    && request.successorDid in d.registry.identities
    && var from, to := d.registry.identities[request.predecessorDid].id, d.registry.identities[request.successorDid].id;
    && to == request.successorId && from != to
    && CanRead(d, from) && CanRead(d, to)
  }

  function NewTransition(d: Disk, request: TransitionRequest, setting: TransitionSetting): Transition
    requires CanTransit(d, request)
  {
    var from := d.records[d.registry.identities[request.predecessorDid].id];
    var to := d.records[request.successorId];
    Transition(request.operation, request.predecessorDid, from.id, from.generation, to.did, to.id, to.generation,
               from.document, if request.supplied.Some? then request.supplied.value else setting.signed, to.document,
               setting.assurance, TPrepared, 1)
  }

  /** The session a prepare call returns, or nothing when it is refused. */
  function PreparedTransition(d: Disk, generation: nat, request: TransitionRequest,
                              setting: TransitionSetting): Option<Transition> {
    if request.predecessorDid == request.successorDid || d.registry.generation != generation then None
    else if request.operation in d.transitions then
      if MatchesRequest(d.transitions[request.operation], request) then Some(d.transitions[request.operation]) else None
    else if Claimed(d, request.predecessorDid) || !CanTransit(d, request) || !setting.valid then None
    else Some(NewTransition(d, request, setting))
  }

  /** The open journals of a predecessor; resuming fails when there are several. */
  function OpenJournals(d: Disk, did: Did): set<string> {
    set op | op in d.transitions && d.transitions[op].predecessorDid == did && IsOpen(d.transitions[op].state)
  }

  /** `reload_and_validate`: the stored journal, if the session and both identity records are where it left them. */
  function Validated(d: Disk, session: Transition): Option<Transition> {
    if session.operation !in d.transitions then None
    else
      var t := d.transitions[session.operation];
      if || t.generation != session.generation
         || t.predecessorDid != session.predecessorDid || t.successorDid != session.successorDid
         || Digest(t.predecessor) != Digest(session.predecessor) || Digest(t.successor) != Digest(session.successor)
      then None
      else if !CanRead(d, t.predecessorId) || !CanRead(d, t.successorId) then None
      else if || d.records[t.predecessorId].generation != t.predecessorGeneration
              || d.records[t.predecessorId].did != t.predecessorDid
              || d.records[t.successorId].generation != t.successorGeneration
              || d.records[t.successorId].did != t.successorDid
      then None
      else Some(t)
  }

  function Step(t: Transition, state: TransitionState): Transition {
    t.(state := state, generation := t.generation + 1)
  }

  function BegunTransition(d: Disk, session: Transition): Option<Transition> {
    match Validated(d, session)
    case None => None
    case Some(t) =>
      if t.state == TPrepared then Some(Step(t, TInFlight))
      else if t.state == TInFlight then Some(t)
      else None
  }

  predicate ValidTransitionAttempt(t: Transition, attempt: TransitionAttempt) {
    && attempt.operation == t.operation
    && attempt.predecessor == Digest(t.predecessor)
    && attempt.successor == Digest(t.successor)
    && attempt.generation == t.generation
  }

  function CompletedTransition(d: Disk, session: Transition, attempt: TransitionAttempt,
                               result: TransitionResult): Option<Transition> {
    match Validated(d, session)
    case None => None
    case Some(t) =>
      if !ValidTransitionAttempt(t, attempt) || t.state != TInFlight then None
      else match result
        case TConfirmed(predecessor, successor) =>
          if predecessor != Digest(t.predecessor) || successor != Digest(t.successor) then None
          else Some(Step(t, TCommitted))
        case TRejected => Some(Step(t, TAborted))
        case TUnknown => Some(Step(t, TUncertain))
  }

  function ReconciledTransition(d: Disk, session: Transition, observation: TransitionObservation): Option<Transition> {
    match Validated(d, session)
    case None => None
    case Some(t) =>
      if t.state != TUncertain then None
      else match observation
        case RemoteOld(document, valid) =>
          if !valid || Digest(document) != Digest(t.trusted) then None else Some(Step(t, TPrepared))
        case RemotePublished(predecessor, successor, valid, assurance) =>
          if Digest(predecessor) != Digest(t.predecessor) || Digest(successor) != Digest(t.successor) then None
          else if !valid || assurance != t.assurance then None
          else Some(Step(t, TCommitted))
  }
}
