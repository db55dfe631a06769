/**
 The authorization ledger and the actions on it. An action reads a ledger and either fails or yields
 the next ledger and a reply; it never touches the generation, which is advanced by whoever writes
 the ledger back. Clock readings, fresh identifiers and the answers of the host are arguments.
 */
module Authorization {
  import opened Model

  type IdentityRef = nat

  datatype Capability = ReadIdentity | SignWith(purpose: string) | HttpAuth(origin: string)

  datatype Operation = Operation(capability: Capability, fingerprint: string)

  /** The policy in force for a caller and an identity. */
  datatype Snapshot = Snapshot(version: string, purposes: set<string>, origins: set<string>)

  predicate Permits(policy: Snapshot, operation: Operation) {
    match operation.capability
    case ReadIdentity => true
    case SignWith(purpose) => purpose in policy.purposes
    case HttpAuth(origin) => origin in policy.origins
  }

  // Entries

  datatype Details =
    | CreateDetails(parameters: string)
    | AccessDetails(identity: Option<IdentityRef>, operation: Option<Operation>)

  datatype RequestPrint = RequestPrint(consumer: string, purpose: string, details: Details)

  datatype RequestStatus = RPending | RApproved | RDenied | RCancelled | RExpired

  datatype CreationStatus = NotStarted | Running | Succeeded | Deleted | UnknownCreation

  datatype Request = Request(
    id: string, consumer: string, fingerprint: RequestPrint, details: Details, version: nat, status: RequestStatus,
    prompted: bool, expiresAt: int, creation: CreationStatus, result: Option<IdentityRef>,
    grant: Option<string>, retryOf: Option<string>)

  datatype Mode = Once | Permanent

  datatype GrantStatus = GActive | GConsumed | GRevoked | GExpired

  datatype Grant = Grant(
    id: string, request: string, consumer: string, identity: IdentityRef, snapshot: Snapshot, mode: Mode,
    version: nat, status: GrantStatus, expiresAt: int, operation: Option<Operation>, execution: Option<string>)

  datatype ExecutionStatus = Admitted | ExecutionSucceeded | ExecutionFailed | ExecutionUnknown

  datatype Execution = Execution(
    id: string, grant: string, consumer: string, operation: Operation, grantVersion: nat, status: ExecutionStatus)

  datatype Kind = CreateKind | AccessKind

  datatype Suppression = Suppression(consumer: string, kind: Kind, identity: Option<IdentityRef>, request: string)

  /** Grants and executions are looked up by their unique ids only. */
  datatype Ledger = Ledger(
    generation: nat, requests: seq<Request>, grants: map<string, Grant>, executions: map<string, Execution>,
    deleted: set<IdentityRef>, deleting: seq<IdentityRef>, suppressions: seq<Suppression>)

  datatype Lease = Lease(grant: string, consumer: string, identity: IdentityRef, grantVersion: nat, expiresAt: int)

  datatype Reply =
    | RNothing
    | RRequest(request: Request)
    | RGrant(grant: Grant)
    | RLease(lease: Lease)
    | RExecution(execution: Execution)

  datatype Outcome = Failed | Done(ledger: Ledger, reply: Reply)

  // Expiry

  function ExpiredRequest(r: Request, now: int): Request {
    if r.status == RPending && r.expiresAt <= now then r.(status := RExpired, version := r.version + 1) else r
  }

  function ExpiredGrant(g: Grant, now: int): Grant {
    if g.status == GActive && g.mode == Once && g.expiresAt <= now then g.(status := GExpired, version := g.version + 1)
    else g
  }

  function Expire(l: Ledger, now: int): Ledger {
    l.(requests := seq(|l.requests|, i requires 0 <= i < |l.requests| => ExpiredRequest(l.requests[i], now)),
       grants := map id | id in l.grants :: ExpiredGrant(l.grants[id], now))
  }

  // Lookups

  /** The position of the first request with the given id, or the number of requests. */
  function RequestPosition(requests: seq<Request>, id: string): (i: nat)
    ensures i <= |requests|
    ensures i < |requests| ==> requests[i].id == id
    ensures forall j :: 0 <= j < i ==> requests[j].id != id
  {
    if requests == [] || requests[0].id == id then 0 else 1 + RequestPosition(requests[1..], id)
  }

  /** The position of the first pending request with the given fingerprint, or the number of requests. */
  function DuplicatePosition(requests: seq<Request>, fingerprint: RequestPrint): (i: nat)
    ensures i <= |requests|
    ensures i < |requests| ==> requests[i].fingerprint == fingerprint && requests[i].status == RPending
  {
    if requests == [] || (requests[0].fingerprint == fingerprint && requests[0].status == RPending) then 0
    else 1 + DuplicatePosition(requests[1..], fingerprint)
  }

  function ReplaceRequest(l: Ledger, r: Request): Ledger {
    var at := RequestPosition(l.requests, r.id);
    if at == |l.requests| then l else l.(requests := l.requests[at := r])
  }

  predicate Available(l: Ledger, identity: IdentityRef) {
    identity !in l.deleting && identity !in l.deleted
  }

  // Requests for authorization

  function KindOf(details: Details): Kind {
    if details.CreateDetails? then CreateKind else AccessKind
  }

  /** A refusal stands in the way of any later request of the same kind, unless both name different identities. */
  predicate Blocks(block: Suppression, consumer: string, details: Details) {
    && block.consumer == consumer && block.kind == KindOf(details)
    && (block.identity.None? || details.CreateDetails? || details.identity.None? || block.identity == details.identity)
  }

  predicate Suppressed(l: Ledger, consumer: string, details: Details) {
    exists i :: 0 <= i < |l.suppressions| && Blocks(l.suppressions[i], consumer, details)
  }

  function NewRequest(l: Ledger, consumer: string, id: string, purpose: string, details: Details,
                      expiresAt: int): Outcome {
    var fingerprint := RequestPrint(consumer, purpose, details);
    var known, duplicate := RequestPosition(l.requests, id), DuplicatePosition(l.requests, fingerprint);
    if known < |l.requests| then
      if l.requests[known].consumer != consumer || l.requests[known].fingerprint != fingerprint then Failed
      else Done(l, RRequest(l.requests[known]))
    else if duplicate < |l.requests| then Done(l, RRequest(l.requests[duplicate]))
    else if Suppressed(l, consumer, details) then Failed
    else
      var request := Request(id, consumer, fingerprint, details, 1, RPending, false, expiresAt, NotStarted, None, None,
                             None);
      Done(l.(requests := l.requests + [request]), RRequest(request))
  }

  /** Answers of the host an action may need: the caller is valid, and the policy in force. */
  datatype Host = Host(callerValid: bool, policy: Option<Snapshot>)

  function RequestAccess(l: Ledger, consumer: string, id: string, purpose: string, details: Details, expiresAt: int,
                         host: Host): Outcome {
    if !host.callerValid || !details.AccessDetails? then Failed
    else if details.identity.Some? && (!Available(l, details.identity.value) || host.policy.None?) then Failed
    else if details.identity.Some? && details.operation.Some? && !Permits(host.policy.value, details.operation.value)
    then Failed
    else NewRequest(l, consumer, id, purpose, details, expiresAt)
  }

  predicate IsPending(l: Ledger, at: nat, expected: nat) {
    at < |l.requests| && l.requests[at].version == expected && l.requests[at].status == RPending
  }

  function Deny(l: Ledger, id: string, expected: nat): Outcome {
    var at := RequestPosition(l.requests, id);
    if !IsPending(l, at, expected) then Failed
    else
      var r := l.requests[at];
      var next := r.(version := r.version + 1, status := RDenied);
      var named := if r.details.AccessDetails? then r.details.identity else None;
      var suppression := Suppression(r.consumer, KindOf(r.details), named, r.id);
      Done(ReplaceRequest(l, next).(suppressions := l.suppressions + [suppression]), RRequest(next))
  }

  function ApproveCreation(l: Ledger, id: string, expected: nat, host: Host): Outcome {
    var at := RequestPosition(l.requests, id);
    if !IsPending(l, at, expected) || !host.callerValid || !l.requests[at].details.CreateDetails? then Failed
    else
      var next := l.requests[at].(version := l.requests[at].version + 1, status := RApproved, creation := Running);
      Done(ReplaceRequest(l, next), RRequest(next))
  }

  /** What the user approves: an identity, a mode and the policy they reviewed. */
  datatype Approval = Approval(identity: Option<IdentityRef>, mode: Mode, reviewed: Option<Snapshot>)

  function SelectedIdentity(details: Details, approval: Approval): Option<IdentityRef>
    requires details.AccessDetails?
  {
    if approval.identity.Some? then approval.identity else details.identity
  }

  /** An access request is approved with a grant; `grant` is a fresh identifier. */
  function ApproveAccess(l: Ledger, id: string, expected: nat, approval: Approval, grant: string, expiresAt: int,
                         host: Host): Outcome {
    var at := RequestPosition(l.requests, id);
    if !IsPending(l, at, expected) || !host.callerValid || !l.requests[at].details.AccessDetails? then Failed
    else
      var r := l.requests[at];
      var selected := SelectedIdentity(r.details, approval);
      if selected.None? || (r.details.identity.Some? && r.details.identity != selected) then Failed
      else if !Available(l, selected.value) || host.policy.None? then Failed
      else if approval.mode == Once && r.details.operation.None? then Failed
      else if r.details.operation.Some? && !Permits(host.policy.value, r.details.operation.value) then Failed
      else if approval.reviewed != host.policy || grant in l.grants then Failed
      else
        var granted := Grant(grant, r.id, r.consumer, selected.value, host.policy.value, approval.mode, 1, GActive,
                             expiresAt,
                             if approval.mode == Once then r.details.operation else None, None);
        var next := r.(status := RApproved, version := r.version + 1, details := r.details.(identity := selected),
                       grant := Some(grant));
        Done(ReplaceRequest(l, next).(grants := l.grants[grant := granted]), RRequest(next))
  }

  function Cancel(l: Ledger, consumer: string, id: string, expected: nat): Outcome {
    var at := RequestPosition(l.requests, id);
    if at == |l.requests| || l.requests[at].consumer != consumer || !IsPending(l, at, expected) then Failed
    else
      var next := l.requests[at].(status := RCancelled, version := l.requests[at].version + 1);
      Done(ReplaceRequest(l, next), RRequest(next))
  }

  /** The user has been shown the request. */
  function MarkPrompted(l: Ledger, id: string, expected: Option<nat>): Outcome {
    var at := RequestPosition(l.requests, id);
    if at == |l.requests| || (expected.Some? && l.requests[at].version != expected.value) then Failed
    else Done(ReplaceRequest(l, l.requests[at].(prompted := true)), RNothing)
  }

  function CancelAll(l: Ledger, consumer: string): Ledger {
    l.(requests := seq(|l.requests|, i requires 0 <= i < |l.requests| =>
      var r := l.requests[i];
      if r.consumer == consumer && r.status == RPending then r.(status := RCancelled, version := r.version + 1) else r))
  }

  function Unblocked(blocks: seq<Suppression>, consumer: string, details: Details): (r: seq<Suppression>)
    ensures forall block :: block in r <==> block in blocks && !Blocks(block, consumer, details)
  {
    if blocks == [] then []
    else
      var front, last := blocks[..|blocks| - 1], blocks[|blocks| - 1];
      assert blocks == front + [last];
      if Blocks(last, consumer, details) then Unblocked(front, consumer, details)
      else Unblocked(front, consumer, details) + [last]
  }

  /** The user retries a settled request: the refusals that match it are lifted and it is made again. */
  function Reauthorize(l: Ledger, id: string, expected: nat, newId: string, expiresAt: int, host: Host): Outcome {
    var at := RequestPosition(l.requests, id);
    if at == |l.requests| || l.requests[at].version != expected || !host.callerValid then Failed
    else
      var r := l.requests[at];
      if r.status == RPending || (r.details.CreateDetails? && r.status == RApproved) then Failed
      else
        var lifted := l.(suppressions := Unblocked(l.suppressions, r.consumer, r.details));
        match NewRequest(lifted, r.consumer, newId, r.fingerprint.purpose, r.details, expiresAt)
        case Failed => Failed
        case Done(next, reply) =>
          if !reply.RRequest? then Failed
          else
            var retried := reply.request.(retryOf := Some(r.id));
            Done(ReplaceRequest(next, retried), RRequest(retried))
  }

  // Created identities

  function FinishCreation(l: Ledger, id: string, result: IdentityRef): Outcome {
    var at := RequestPosition(l.requests, id);
    if at == |l.requests| || !l.requests[at].details.CreateDetails? || l.requests[at].status != RApproved then Failed
    else
      var r := l.requests[at];
      if r.result.Some? && r.result.value != result then Failed
      else
        var status := if r.creation == Deleted || result in l.deleted then Deleted else Succeeded;
        var next := r.(version := r.version + 1, creation := status, result := Some(result));
        Done(ReplaceRequest(l, next), RRequest(next))
  }

  function CreationUncertain(l: Ledger, id: string): Outcome {
    var at := RequestPosition(l.requests, id);
    if at == |l.requests| then Failed
    else
      var r := l.requests[at];
      if r.creation == Succeeded || r.creation == Deleted then Done(l, RRequest(r))
      else
        var next := r.(version := r.version + 1, creation := UnknownCreation);
        Done(ReplaceRequest(l, next), RRequest(next))
  }

  // Grants in use

  function Revoke(l: Ledger, grant: string, expected: nat): Outcome {
    if grant !in l.grants || l.grants[grant].version != expected then Failed
    else
      var g := l.grants[grant];
      if g.status == GRevoked then Done(l, RGrant(g))
      else
        var next := g.(status := GRevoked, version := g.version + 1);
        Done(l.(grants := l.grants[grant := next],
                suppressions := l.suppressions + [Suppression(g.consumer, AccessKind, Some(g.identity), g.request)]),
             RGrant(next))
  }

  function Open(l: Ledger, consumer: string, grant: string, expiresAt: int, host: Host): Outcome {
    if grant !in l.grants then Failed
    else
      var g := l.grants[grant];
      if g.consumer != consumer || g.status != GActive || !Available(l, g.identity) then Failed
      else if !host.callerValid || host.policy.None? then Failed
      else
        var until := if g.mode == Once && g.expiresAt < expiresAt then g.expiresAt else expiresAt;
        Done(l, RLease(Lease(grant, g.consumer, g.identity, g.version, until)))
  }

  predicate LeaseHolds(l: Ledger, consumer: string, lease: Lease, operation: Operation, now: int, host: Host) {
    && lease.grant in l.grants
    && var g := l.grants[lease.grant];
    && g.consumer == consumer && lease.consumer == g.consumer && lease.identity == g.identity
    && lease.expiresAt > now && g.version == lease.grantVersion
    && Available(l, g.identity) && host.callerValid
    && host.policy.Some? && host.policy.value.version == g.snapshot.version
    && Permits(g.snapshot, operation) && Permits(host.policy.value, operation)
  }

  function Admit(l: Ledger, consumer: string, lease: Lease, operation: Operation, execution: string, now: int,
                 host: Host): Outcome {
    if execution in l.executions || !LeaseHolds(l, consumer, lease, operation, now, host) then Failed
    else
      var g := l.grants[lease.grant];
      if g.status != GActive then Failed
      else if g.mode == Once && (g.operation.None? || g.operation.value.fingerprint != operation.fingerprint)
      then Failed
      else
        var admitted := Execution(execution, g.id, g.consumer, operation, g.version, Admitted);
        var grants := if g.mode == Permanent then l.grants
          else l.grants[lease.grant := g.(status := GConsumed, version := g.version + 1, execution := Some(execution))];
        Done(l.(executions := l.executions[execution := admitted], grants := grants), RExecution(admitted))
  }

  function AssertActive(l: Ledger, consumer: string, lease: Lease, execution: string, now: int, host: Host): Outcome {
    if execution !in l.executions then Failed
    else
      var x := l.executions[execution];
      if x.grant != lease.grant || x.status != Admitted || x.consumer != consumer || lease.grant !in l.grants
      then Failed
      else
        var g := l.grants[lease.grant];
        var version := if g.mode == Once then x.grantVersion + 1 else x.grantVersion;
        if x.grantVersion != lease.grantVersion || g.version != version then Failed
        else if g.status != GActive && !(g.status == GConsumed && g.execution == Some(execution)) then Failed
        else if !LeaseHolds(l, consumer, lease.(grantVersion := version), x.operation, now, host) then Failed
        else Done(l, RNothing)
  }

  function RecordExecution(l: Ledger, consumer: string, execution: string, status: ExecutionStatus): Outcome {
    if status == Admitted || execution !in l.executions || l.executions[execution].consumer != consumer then Failed
    else
      var x := l.executions[execution];
      if x.status != Admitted then (if x.status != status then Failed else Done(l, RExecution(x)))
      else Done(l.(executions := l.executions[execution := x.(status := status)]), RExecution(x.(status := status)))
  }

  // Deletion

  predicate HasActiveGrant(l: Ledger, identity: IdentityRef) {
    exists id :: id in l.grants && l.grants[id].identity == identity && l.grants[id].status == GActive
  }

  function Unfenced(deleting: seq<IdentityRef>, target: IdentityRef): (r: seq<IdentityRef>)
    ensures forall other :: other in r <==> other in deleting && other != target
  {
    if deleting == [] then []
    else
      var front, last := deleting[..|deleting| - 1], deleting[|deleting| - 1];
      assert deleting == front + [last];
      if last == target then Unfenced(front, target) else Unfenced(front, target) + [last]
  }

  function CompleteDeletion(l: Ledger, target: IdentityRef): Ledger {
    l.(deleting := Unfenced(l.deleting, target), deleted := l.deleted + {target},
       requests := seq(|l.requests|, i requires 0 <= i < |l.requests| =>
         var r := l.requests[i];
         if r.details.CreateDetails? && r.result == Some(target) && r.creation != Deleted
         then r.(creation := Deleted, version := r.version + 1) else r))
  }

  function Fenced(l: Ledger, target: IdentityRef): Ledger {
    if target in l.deleting then l else l.(deleting := l.deleting + [target])
  }

  /** The fences of the catalog are taken over, one by one. */
  function TakeFences(l: Ledger, fences: seq<IdentityRef>): Ledger {
    if fences == [] then l
    else
      var before := TakeFences(l, fences[..|fences| - 1]);
      var target := fences[|fences| - 1];
      if target in before.deleted then before else Fenced(before, target)
  }

  /** Each listed identity without an active grant that is known to be absent is deleted. */
  function ReconcileEach(l: Ledger, listed: seq<IdentityRef>, absent: set<IdentityRef>): Ledger {
    if listed == [] then l
    else
      var before := ReconcileEach(l, listed[..|listed| - 1], absent);
      var target := listed[|listed| - 1];
      if HasActiveGrant(before, target) || target !in absent then before else CompleteDeletion(before, target)
  }

  function ReconcileDeletions(l: Ledger, fences: seq<IdentityRef>, absent: set<IdentityRef>): Ledger {
    var fenced := TakeFences(l, fences);
    ReconcileEach(fenced, fenced.deleting, absent)
  }

  // Actions

  datatype Call =
    | Nothing
    | AskCreate(consumer: string, id: string, purpose: string, details: Details, expiresAt: int, host: Host)
    | AskAccess(consumer: string, id: string, purpose: string, details: Details, expiresAt: int, host: Host)
    | Prompt(id: string, shown: Option<nat>)
    | CancelRequest(consumer: string, id: string, expected: nat)
    | CancelConsumer(consumer: string)
    | DenyRequest(id: string, expected: nat)
    | ApproveCreate(id: string, expected: nat, host: Host)
    | ApproveGrant(id: string, expected: nat, approval: Approval, grant: string, expiresAt: int, host: Host)
    | CreationDone(id: string, result: IdentityRef)
    | CreationFailed(id: string)
    | Retry(id: string, expected: nat, newId: string, expiresAt: int, host: Host)
    | RevokeGrant(grant: string, expected: nat)
    | OpenGrant(consumer: string, grant: string, expiresAt: int, host: Host)
    | AdmitExecution(consumer: string, lease: Lease, operation: Operation, execution: string, now: int, host: Host)
    | AssertExecution(consumer: string, lease: Lease, execution: string, now: int, host: Host)
    | RecordResult(consumer: string, execution: string, status: ExecutionStatus)
    | Reconciliation(fences: seq<IdentityRef>, absent: set<IdentityRef>)

  /** The calls that read the host while no lock is held, and so run on a snapshot. */
  predicate Optimistic(call: Call) {
    || call.AskAccess? || call.DenyRequest? || call.ApproveCreate? || call.ApproveGrant?
    || call.OpenGrant? || call.AdmitExecution? || call.AssertExecution? || call.Reconciliation?
  }

  function Act(l: Ledger, call: Call): Outcome {
    match call
    case Nothing => Done(l, RNothing)
    case AskCreate(consumer, id, purpose, details, expiresAt, host) =>
      if !host.callerValid || !details.CreateDetails? then Failed
      else NewRequest(l, consumer, id, purpose, details, expiresAt)
    case AskAccess(consumer, id, purpose, details, expiresAt, host) =>
      RequestAccess(l, consumer, id, purpose, details, expiresAt, host)
    case Prompt(id, shown) => MarkPrompted(l, id, shown)
    case CancelRequest(consumer, id, expected) => Cancel(l, consumer, id, expected)
    case CancelConsumer(consumer) => Done(CancelAll(l, consumer), RNothing)
    case DenyRequest(id, expected) => Deny(l, id, expected)
    case ApproveCreate(id, expected, host) => ApproveCreation(l, id, expected, host)
    case ApproveGrant(id, expected, approval, grant, expiresAt, host) =>
      ApproveAccess(l, id, expected, approval, grant, expiresAt, host)
    case CreationDone(id, result) => FinishCreation(l, id, result)
    case CreationFailed(id) => CreationUncertain(l, id)
    case Retry(id, expected, newId, expiresAt, host) => Reauthorize(l, id, expected, newId, expiresAt, host)
    case RevokeGrant(grant, expected) => Revoke(l, grant, expected)
    case OpenGrant(consumer, grant, expiresAt, host) => Open(l, consumer, grant, expiresAt, host)
    case AdmitExecution(consumer, lease, operation, execution, now, host) =>
      Admit(l, consumer, lease, operation, execution, now, host)
    case AssertExecution(consumer, lease, execution, now, host) =>
      AssertActive(l, consumer, lease, execution, now, host)
    case RecordResult(consumer, execution, status) => RecordExecution(l, consumer, execution, status)
    case Reconciliation(fences, absent) => Done(ReconcileDeletions(l, fences, absent), RNothing)
  }
}
