/** The durable records, the requests and the journal events of the control plane. */
module Records {
  import opened Common

  type Id = string

  datatype Effect =
    ReadRemote | WriteRemote | ExecuteRemote | Publish | CreateIdentity | StoreExternal | SendMessage | Delegate

  /** An element of a request's `effects` array; only known names are accepted. */
  datatype EffectName = Known(effect: Effect) | Unknown(name: string)

  /** The operations that are dispatched to a remote agent under governance. */
  datatype Operation = Submit | Respond | Cancel | StreamSubmit | PushCreate | PushDelete | Materialize

  datatype LeaseClaim = LeaseClaim(resource: string, owner: string, token: string, fence: int)

  /** A mutating request; `payload` stands for every field that the control plane only hashes. */
  datatype Request = Request(
    requestId: Option<Id>, op: Operation, agent: string, taskId: string, sessionId: Id,
    effects: Option<seq<EffectName>>, parentId: Id, continuationId: Id, retryOf: Id,
    lease: Option<LeaseClaim>, payload: string)

  datatype ErrorKind = NoError | LocalNetwork | MalformedResponse | DispatchException | OtherError(name: string)

  /** What a dispatch returned. */
  datatype Result = Result(
    ok: bool, kind: ErrorKind, taskId: Option<string>, contextId: Option<string>, executionId: Id, body: string)

  datatype ExecutionState = Dispatching | Uncertain | Delivered | Failed

  datatype Link = Link(agent: string, executionId: Id)

  datatype Execution = Execution(
    state: ExecutionState, requestHash: string, agent: string, op: Operation, sessionId: Id,
    effects: set<Effect>, chain: seq<Link>, parentId: Id, continuationId: Id, retryOf: Id, startedAt: int,
    taskId: string, contextId: Option<string>, result: Option<Result>, finishedAt: Option<int>)

  datatype ApprovalState = Pending | Approved | Denied | Revoked

  datatype Approval = Approval(
    state: ApprovalState, requestHash: string, agent: string, op: Operation, effects: set<Effect>,
    taskId: string, expiresAt: Option<int>)

  datatype Lease = Lease(owner: string, token: string, fence: int, expiresAt: int)

  datatype ContinuationKind = InputRequired | ApprovalKind | Retry | Handoff | OtherKind(name: string)

  datatype ContinuationState = Awaiting | Answered

  datatype Continuation = Continuation(
    taskId: string, kind: ContinuationKind, state: ContinuationState, executionId: Option<Id>)

  datatype Health = Health(failures: int, quarantined: bool)

  datatype Provenance = Provenance(sha256: string, source: string, version: string)

  datatype Channel = Channel(cursor: int, delivered: int)

  datatype LeaseAction = Acquire | Renew | Release

  datatype Event =
    | ExecutionStarted(
        id: Id, agent: string, sessionId: Id, requestHash: string, effects: set<Effect>, chain: seq<Link>)
    | ExecutionUncertain(id: Id)
    | ExecutionFinished(id: Id, state: ExecutionState, taskId: string)
    | ContinuationRequired(id: Id, taskId: string, kind: ContinuationKind)
    | ContinuationDelivered(id: Id, executionId: Id)
    | SessionCreated(id: Id)
    | LeaseChanged(action: LeaseAction, resource: string, owner: string, fence: int)
    | ApprovalRequired(id: Id, effects: set<Effect>, agent: string)
    | ApprovalDecided(id: Id, decision: ApprovalState, expiresAt: int)
    | ApprovalRevoked(id: Id)
    | AgentQuarantined(agent: string)
    | AgentReleased(agent: string)
    | ProvenanceRecorded(agent: string, sha256: string)
    | Outside(text: string)

  /** A row of `control_events`; its sequence number is its position, counted from 1. */
  datatype Row = Row(time: int, event: Event, previousHash: string, hash: string)

  /** The contents of the database. */
  datatype Db = Db(
    executions: map<Id, Execution>, approvals: map<Id, Approval>, leases: map<string, Lease>,
    continuations: map<Id, Continuation>, sessions: map<Id, string>, health: map<string, Health>,
    provenance: map<string, Provenance>, channels: map<Id, Channel>, log: seq<Row>)

  const EmptyDb := Db(map[], map[], map[], map[], map[], map[], map[], map[], [])

  /** How a log row and a canonical request are hashed; Audit.Sha256World says what the program uses. */
  datatype World = World(rowHash: (string, int, Event) -> string, requestHash: Request -> string)

  /** The readings of the clock that one transaction makes, in order, and the id that `newId` yields. */
  datatype Env = Env(now: nat -> int, newId: Id)
}
