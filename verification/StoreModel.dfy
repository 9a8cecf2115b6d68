/** The durable store of `db/store.py`: its rows, its append-only audit log, and one
    specification function per transaction. */
module StoreModel {
  import opened Basics

  datatype SessionStatus = Created | Active | Closing | Closed | Blocked

  datatype OpState =
    | Received | Validated | AwaitingApproval | Dispatched | Running
    | Succeeded | Failed | Cancelled | Unknown

  datatype ApprovalStatus = Pending | Consumed | Expired | Withdrawn

  datatype CheckpointStatus = Recorded | Restored

  datatype CheckpointKind = Manual | Mutation | RollbackSafety

  /** An error as it is stored; `approvalToken` is the plaintext token in its details. */
  datatype Failure = Failure(code: string, approvalToken: Option<string>, details: string)

  datatype Payload = Payload(status: string, body: string, error: Option<Failure>)

  /** What may be stored of an error: everything but its plaintext token. */
  predicate FailureKept(stored: Failure, given: Failure) {
    stored.code == given.code && stored.details == given.details && stored.approvalToken.None?
  }

  /** What may be stored of a payload. */
  predicate PayloadKept(stored: Payload, given: Payload) {
    && stored.status == given.status && stored.body == given.body
    && (stored.error.Some? <==> given.error.Some?)
    && (given.error.Some? ==> FailureKept(stored.error.value, given.error.value))
  }

  datatype Session = Session(project: Id, status: SessionStatus, reason: Option<string>)

  datatype Operation = Operation(
    project: Id, session: Option<Id>, key: string, hash: string, mutation: bool,
    state: OpState, result: Option<Payload>, error: Option<Failure>)

  datatype Approval = Approval(
    tokenHash: Id, status: ApprovalStatus, expiresAt: int, consumedAt: Option<int>)

  /** What a Git snapshot records about one instant of a project. */
  datatype Snapshot = Snapshot(
    branch: string, head: CommitId, dirty: bool, changed: set<Path>, files: Tree, truncated: bool)

  /** The hash of a diff text: a function of the two trees that were compared. */
  datatype Digest = Digest(before: Tree, after: Tree)

  datatype Checkpoint = Checkpoint(
    project: Id, session: Option<Id>, operation: Option<Id>, kind: CheckpointKind,
    branch: string, head: CommitId, before: Snapshot, after: Option<Snapshot>,
    diffHash: Option<Digest>, status: CheckpointStatus)

  /** The identity recorded with an authenticated request: the frozen OAuth fields, or the one
      network-trust profile. */
  datatype Identity = OAuthIdentity(fields: seq<string>) | NetworkIdentity

  datatype Event =
    | SessionEvent(session: Id, from: Option<SessionStatus>, to: SessionStatus)
    | OperationEvent(operation: Id, before: Option<OpState>, entered: OpState)
    | ApprovalEvent(operation: Id, was: Option<ApprovalStatus>, became: ApprovalStatus)
    | CheckpointEvent(checkpoint: Id, previous: Option<CheckpointStatus>, now: CheckpointStatus)
    | SessionAuthEvent(session: Id, identity: Identity)
    | OperationAuthEvent(operation: Id, identity: Identity)

  /** The tables; approvals are keyed by their operation, which the schema makes unique. */
  datatype Store = Store(
    sessions: map<Id, Session>, operations: map<Id, Operation>,
    approvals: map<Id, Approval>, checkpoints: map<Id, Checkpoint>, audit: seq<Event>)

  const EMPTY_STORE := Store(map[], map[], map[], map[], [])

  datatype StoreError =
    | RowNotFound | InvalidTransition | IntegrityViolation
    | ApprovalNotFound | ApprovalTokenMismatch | ApprovalAlreadyUsed | ApprovalExpired

  /** A transaction commits with a new store, or raises and leaves the old one. */
  datatype Outcome = Done(store: Store) | Raised(error: StoreError)

  function Settle(s: Store, o: Outcome): Store {
    if o.Done? then o.store else s
  }

  // ---------------------------------------------------------------- transition tables

  predicate SessionEdge(from: SessionStatus, to: SessionStatus) {
    match from
    case Created => to.Active? || to.Closed? || to.Blocked?
    case Active => to.Closing? || to.Blocked?
    case Closing => to.Closed? || to.Blocked?
    case Closed => false
    case Blocked => false
  }

  predicate OperationEdge(from: OpState, to: OpState) {
    match from
    case Received => to.Validated? || to.Failed? || to.Cancelled?
    case Validated => to.AwaitingApproval? || to.Dispatched? || to.Failed? || to.Cancelled?
    case AwaitingApproval => to.Dispatched? || to.Cancelled? || to.Failed?
    case Dispatched => to.Running? || to.Failed? || to.Unknown?
    case Running => to.Succeeded? || to.Failed? || to.Unknown? || to.Cancelled?
    case Succeeded => false
    case Failed => false
    case Cancelled => false
    case Unknown => to.Failed? || to.Succeeded?
  }

  predicate ApprovalEdge(from: ApprovalStatus, to: ApprovalStatus) {
    from.Pending? && (to.Consumed? || to.Expired? || to.Withdrawn?)
  }

  /** The six states in which a mutation occupies its project. */
  predicate ActiveMutationState(st: OpState) {
    st.Received? || st.Validated? || st.AwaitingApproval? || st.Dispatched? || st.Running? || st.Unknown?
  }

  predicate HoldsSlot(o: Operation) {
    o.mutation && ActiveMutationState(o.state)
  }

  // ---------------------------------------------------------------- session transactions

  function CreateSession(s: Store, id: Id, project: Id, auth: Option<Identity>): Outcome {
    if id in s.sessions then Raised(IntegrityViolation)
    else
      Done(s.(sessions := s.sessions[id := Session(project, Active, None)],
              audit := s.audit
                       + [SessionEvent(id, None, Created)]
                       + [SessionEvent(id, Some(Created), Active)]
                       + (if auth.Some? then [SessionAuthEvent(id, auth.value)] else [])))
  }

  function TransitionSession(s: Store, id: Id, to: SessionStatus, reason: Option<string>): Outcome {
    if id !in s.sessions then Raised(RowNotFound)
    else
      var row := s.sessions[id];
      if to != row.status && !SessionEdge(row.status, to) then Raised(InvalidTransition)
      else
        Done(s.(sessions := s.sessions[id := row.(status := to, reason := reason)],
                audit := if to != row.status
                         then s.audit + [SessionEvent(id, Some(row.status), to)] else s.audit))
  }

  // ---------------------------------------------------------------- operation transactions

  ghost predicate HasKey(s: Store, id: Id, project: Id, session: Option<Id>, key: string) {
    id in s.operations && s.operations[id].project == project
    && s.operations[id].session == session && s.operations[id].key == key
  }

  ghost predicate HoldsProject(s: Store, id: Id, project: Id) {
    id in s.operations && s.operations[id].project == project && HoldsSlot(s.operations[id])
  }

  datatype Creation =
    | Existing(id: Id)
    | Occupied(holder: Id)
    | Inserted(store: Store)
    | DuplicateId

  ghost function CreateOperation(s: Store, id: Id, project: Id, session: Option<Id>, key: string,
                                 hash: string, mutation: bool): (r: Creation)
    ensures r.Inserted? ==> r.store == InsertOperation(s, id, project, session, key, hash, mutation)
  {
    if exists e :: HasKey(s, e, project, session, key) then
      var e :| HasKey(s, e, project, session, key); Existing(e)
    else if mutation && exists h :: HoldsProject(s, h, project) then
      var h :| HoldsProject(s, h, project); Occupied(h)
    else if id in s.operations then DuplicateId
    else Inserted(InsertOperation(s, id, project, session, key, hash, mutation))
  }

  function InsertOperation(s: Store, id: Id, project: Id, session: Option<Id>, key: string,
                           hash: string, mutation: bool): Store
  {
    s.(operations :=
         s.operations[id := Operation(project, session, key, hash, mutation, Received, None, None)],
       audit := s.audit + [OperationEvent(id, None, Received)])
  }

  function TransitionOperation(s: Store, id: Id, to: OpState, expected: Option<OpState>,
                               result: Option<Payload>, error: Option<Failure>): Outcome
  {
    if id !in s.operations then Raised(RowNotFound)
    else
      var row := s.operations[id];
      if expected.Some? && row.state != expected.value then Raised(InvalidTransition)
      else if to != row.state && !OperationEdge(row.state, to) then Raised(InvalidTransition)
      else
        var updated := row.(state := to,
                            result := if result.Some? then result else row.result,
                            error := if error.Some? then error else row.error);
        Done(s.(operations := s.operations[id := updated],
                audit := if to != row.state
                         then s.audit + [OperationEvent(id, Some(row.state), to)] else s.audit))
  }

  function RecordOperationAuth(s: Store, id: Id, identity: Identity): Outcome {
    if id !in s.operations then Raised(RowNotFound)
    else Done(s.(audit := s.audit + [OperationAuthEvent(id, identity)]))
  }

  // ---------------------------------------------------------------- approval transactions

  predicate TokenTaken(approvals: map<Id, Approval>, tokenHash: Id) {
    exists other :: other in approvals && approvals[other].tokenHash == tokenHash
  }

  function CreateApproval(s: Store, id: Id, tokenHash: Id, expiresAt: int): Outcome {
    if id !in s.operations || id in s.approvals || TokenTaken(s.approvals, tokenHash) then Raised(IntegrityViolation)
    else
      Done(s.(approvals := s.approvals[id := Approval(tokenHash, Pending, expiresAt, None)],
              audit := s.audit + [ApprovalEvent(id, None, Pending)]))
  }

  function ConsumeApproval(s: Store, id: Id, tokenHash: Id, now: int): Outcome {
    if id !in s.approvals || id !in s.operations then Raised(ApprovalNotFound)
    else
      var row := s.approvals[id];
      if row.tokenHash != tokenHash then Raised(ApprovalTokenMismatch)
      else if row.status == Expired then Raised(ApprovalExpired)
      else if row.status != Pending then Raised(ApprovalAlreadyUsed)
      else if row.expiresAt <= now then Raised(ApprovalExpired)
      else
        Done(s.(approvals := s.approvals[id := row.(status := Consumed, consumedAt := Some(now))],
                audit := s.audit + [ApprovalEvent(id, Some(Pending), Consumed)]))
  }

  function CancelApproval(s: Store, id: Id): Outcome {
    if id !in s.approvals || id !in s.operations || s.approvals[id].status != Pending then
      Raised(ApprovalNotFound)
    else
      Done(s.(approvals := s.approvals[id := s.approvals[id].(status := Withdrawn)],
              audit := s.audit + [ApprovalEvent(id, Some(Pending), Withdrawn)]))
  }

  // ---------------------------------------------------------------- checkpoint transactions

  function CreateCheckpoint(s: Store, id: Id, row: Checkpoint): Outcome {
    if id in s.checkpoints || (row.operation.Some? && row.operation.value !in s.operations) then
      Raised(IntegrityViolation)
    else
      var created := row.(after := None, diffHash := None, status := Recorded);
      Done(s.(checkpoints := s.checkpoints[id := created],
              audit := s.audit + [CheckpointEvent(id, None, Recorded)]))
  }

  function FinalizeCheckpoint(s: Store, id: Id, after: Snapshot, diffHash: Digest): Outcome {
    if id !in s.checkpoints then Raised(RowNotFound)
    else
      var row := s.checkpoints[id];
      Done(s.(checkpoints := s.checkpoints[id := row.(after := Some(after), diffHash := Some(diffHash))],
              audit := s.audit + [CheckpointEvent(id, Some(row.status), row.status)]))
  }

  function MarkCheckpointRestored(s: Store, id: Id): Outcome {
    if id !in s.checkpoints then Raised(RowNotFound)
    else
      var row := s.checkpoints[id];
      Done(s.(checkpoints := s.checkpoints[id := row.(status := Restored)],
              audit := s.audit + [CheckpointEvent(id, Some(row.status), Restored)]))
  }

  /** The row `c` proves that `session` owns the tip `head` of `branch`: a finalized mutation of
      that session, not restored since, that succeeded, ended clean and moved HEAD to `head`. */
  predicate ProvesSessionWip(s: Store, c: Id, project: Id, session: Id, branch: string, head: CommitId) {
    && branch != ""
    && c in s.checkpoints
    && var row := s.checkpoints[c];
    && row.project == project && row.session == Some(session)
    && row.kind == Mutation && row.status == Recorded
    && row.after.Some? && row.diffHash.Some?
    && row.operation.Some? && row.operation.value in s.operations
    && var op := s.operations[row.operation.value];
    && op.project == project && op.session == row.session && op.mutation && op.state == Succeeded
    && session in s.sessions
    && s.sessions[session].project == project && s.sessions[session].status == Active
    && row.head == row.before.head && row.branch == row.before.branch
    && !row.after.value.dirty
    && row.before.head != row.after.value.head
    && row.after.value.branch == branch && row.after.value.head == head
    && row.before.branch == row.after.value.branch
  }

  // ---------------------------------------------------------------- restart recovery

  predicate Open(x: Session) {
    x.status.Active? || x.status.Closing?
  }

  predicate InFlight(st: OpState) {
    st.Received? || st.Validated? || st.AwaitingApproval? || st.Dispatched? || st.Running?
  }

  function RecoveredState(o: Operation): OpState {
    if !InFlight(o.state) then o.state
    else if o.state == AwaitingApproval then Cancelled
    else if o.mutation && (o.state.Dispatched? || o.state.Running?) then Unknown
    else Failed
  }

  const RESTARTED := Failure("BRIDGE_RESTARTED", None, "")
  const UNKNOWN_AFTER_RESTART := Failure("UNKNOWN_SIDE_EFFECT", None, "")

  function RecoveredOperation(o: Operation): Operation {
    if !InFlight(o.state) then o
    else
      var to := RecoveredState(o);
      o.(state := to, error := Some(if to == Unknown then UNKNOWN_AFTER_RESTART else RESTARTED))
  }

  function RecoveredSession(x: Session): Session {
    if Open(x) then x.(status := Blocked, reason := Some("bridge_restart")) else x
  }

  function RecoveredApproval(a: Approval): Approval {
    if a.status == Pending then a.(status := Withdrawn) else a
  }

  /** `t` is a possible result of recovery on `s`. The tables are fixed; the order in which the
      selected rows were visited, hence the order of the new audit events, is not. */
  ghost predicate Recovered(s: Store, t: Store) {
    && t.sessions.Keys == s.sessions.Keys
    && (forall id :: id in s.sessions ==> t.sessions[id] == RecoveredSession(s.sessions[id]))
    && t.operations.Keys == s.operations.Keys
    && (forall id :: id in s.operations ==> t.operations[id] == RecoveredOperation(s.operations[id]))
    && t.approvals.Keys == s.approvals.Keys
    && (forall id :: id in s.approvals ==> t.approvals[id] == RecoveredApproval(s.approvals[id]))
    && t.checkpoints == s.checkpoints
    && s.audit <= t.audit
    && HistoryHolds(t)
    && OneEventEach(s, t)
  }

  /** Every operation that moved has exactly one new event, no other operation has any, and no
      identity is recorded. */
  ghost predicate OneEventEach(s: Store, t: Store) {
    && (forall id :: Trail(t.audit, id) == Trail(s.audit, id) + Moved(s, t, id))
    && IdentitiesKept(s.audit, t.audit)
  }

  /** Both logs give every operation and every session the same identity. */
  ghost predicate IdentitiesKept(a: seq<Event>, b: seq<Event>) {
    forall id :: IdentityOf(b, id) == IdentityOf(a, id) && SessionIdentityOf(b, id) == SessionIdentityOf(a, id)
  }

  /** Both logs give every session the same identity. */
  ghost predicate SessionIdentitiesKept(a: seq<Event>, b: seq<Event>) {
    forall x :: SessionIdentityOf(b, x) == SessionIdentityOf(a, x)
  }

  ghost function Moved(s: Store, t: Store, id: Id): seq<OpState> {
    if id in s.operations && id in t.operations && s.operations[id].state != t.operations[id].state
    then [t.operations[id].state] else []
  }

  // ---------------------------------------------------------------- the audit log as history

  /** The state of every session, operation and approval. */
  datatype Statuses = Statuses(
    sessions: map<Id, SessionStatus>, operations: map<Id, OpState>, approvals: map<Id, ApprovalStatus>)

  function StatusesOf(s: Store): Statuses {
    Statuses(map id | id in s.sessions :: s.sessions[id].status,
             map id | id in s.operations :: s.operations[id].state,
             map id | id in s.approvals :: s.approvals[id].status)
  }

  /** One event applied to the states so far; None when the event does not start where the
      previous event of the same row ended, is not an edge of the row's transition table, or
      records the identity behind a row that does not exist. */
  function Advance(t: Statuses, e: Event): Option<Statuses> {
    match e
    case SessionEvent(id, from, to) =>
      if from == Lookup(t.sessions, id)
         && (if from.None? then to == Created else SessionEdge(from.value, to))
      then Some(t.(sessions := t.sessions[id := to])) else None
    case OperationEvent(id, from, to) =>
      if from == Lookup(t.operations, id)
         && (if from.None? then to == Received else OperationEdge(from.value, to))
      then Some(t.(operations := t.operations[id := to])) else None
    case ApprovalEvent(id, from, to) =>
      if from == Lookup(t.approvals, id)
         && (if from.None? then to == Pending else ApprovalEdge(from.value, to))
      then Some(t.(approvals := t.approvals[id := to])) else None
    case CheckpointEvent(_, _, _) => Some(t)
    case SessionAuthEvent(id, _) => if id in t.sessions then Some(t) else None
    case OperationAuthEvent(id, _) => if id in t.operations then Some(t) else None
  }

  /** The fold of the whole log from empty tables. */
  function Replay(log: seq<Event>): Option<Statuses> {
    if log == [] then Some(Statuses(map[], map[], map[]))
    else
      var prefix := Replay(log[..|log| - 1]);
      if prefix.None? then None else Advance(prefix.value, log[|log| - 1])
  }

  /** The states an operation entered, oldest first. */
  function Trail(log: seq<Event>, id: Id): seq<OpState> {
    if log == [] then []
    else
      var e := log[|log| - 1];
      Trail(log[..|log| - 1], id)
      + (if e.OperationEvent? && e.operation == id then [e.entered] else [])
  }

  /** The identity an operation was started with: its first identity record. */
  function IdentityOf(log: seq<Event>, id: Id): Option<Identity> {
    if log == [] then None
    else
      var earlier, e := IdentityOf(log[..|log| - 1], id), log[|log| - 1];
      if earlier.None? && e.OperationAuthEvent? && e.operation == id then Some(e.identity) else earlier
  }

  /** The identity a session was opened with. */
  function SessionIdentityOf(log: seq<Event>, id: Id): Option<Identity> {
    if log == [] then None
    else
      var earlier, e := SessionIdentityOf(log[..|log| - 1], id), log[|log| - 1];
      if earlier.None? && e.SessionAuthEvent? && e.session == id then Some(e.identity) else earlier
  }

  // ---------------------------------------------------------------- invariants

  ghost predicate HistoryHolds(s: Store) {
    Replay(s.audit) == Some(StatusesOf(s))
  }

  ghost predicate ShareSlot(rows: map<Id, Operation>, a: Id, b: Id) {
    && a in rows && b in rows && rows[a].project == rows[b].project
    && HoldsSlot(rows[a]) && HoldsSlot(rows[b])
  }

  /** At most one mutation occupies a project. */
  ghost predicate SlotExclusive(rows: map<Id, Operation>) {
    forall a, b :: ShareSlot(rows, a, b) ==> a == b
  }

  ghost predicate ShareKey(rows: map<Id, Operation>, a: Id, b: Id) {
    && a in rows && b in rows && rows[a].project == rows[b].project
    && rows[a].session == rows[b].session && rows[a].key == rows[b].key
  }

  /** One row per (project, session, key), a missing session included. */
  ghost predicate KeysUnique(rows: map<Id, Operation>) {
    forall a, b :: ShareKey(rows, a, b) ==> a == b
  }

  ghost predicate ApprovalsSound(s: Store) {
    && (forall id :: id in s.approvals ==> id in s.operations)
    && (forall id :: id in s.approvals ==> s.approvals[id].status != Expired)
    && (forall id :: id in s.approvals && s.approvals[id].status == Consumed ==>
          s.approvals[id].consumedAt.Some? && s.approvals[id].consumedAt.value < s.approvals[id].expiresAt)
  }

  ghost predicate Consistent(s: Store) {
    HistoryHolds(s) && SlotExclusive(s.operations) && KeysUnique(s.operations) && ApprovalsSound(s)
  }
}
