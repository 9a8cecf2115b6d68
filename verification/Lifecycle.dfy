/** The operation, approval and reconciliation services as one transition system: any number of
    requests in flight, interleaved between any two store transactions, with crashes at any point.

    A driver is a live coroutine that is executing an operation; a step of a driver is one
    transaction. What a coroutine read earlier may be stale: such guards ask only whether the
    operation was ever in the state. The one exception are `ReconcileFailed` and `ReconcileAsk`: their
    coroutine checks the caller's session and that the operation is unknown, and then finishes the operation, or
    queues for the lock, without a suspension in between, so check and effect are one step here. With
    a stale read a failed operation could be finished as failed again, with another payload. */
module Lifecycle {
  import opened Basics
  import opened StoreModel
  import opened AuditHistory

  datatype Phase =
    | Accepted     // row received, not yet validated
    | Checked      // validated, approval not yet considered
    | Granted      // approval issued, row not yet parked
    | Launched     // dispatched, not yet running
    | InBody       // running
    | Approved     // approval consumed, row not yet dispatched
    | Withdrawing  // approval cancelled, row not yet cancelled

  /** `waiting` has one element for each reconciliation as succeeded that has passed its session check and
      waits for the project's mutation lock; `holders` maps a project to the operation whose reconciliation
      holds that lock. */
  datatype System = System(store: Store, drivers: map<Id, Phase>, waiting: multiset<Id>, holders: map<Id, Id>)

  const INITIAL := System(EMPTY_STORE, map[], multiset{}, map[])

  datatype Verdict = Success | Failure | Uncertain

  datatype Step =
    | Accept(id: Id, project: Id, session: Option<Id>, key: string, hash: string, mutation: bool)
    | RecordIdentity(id: Id, identity: Identity)
    | Validate(id: Id)
    | Reject(id: Id, payload: Payload)
    | Issue(id: Id, tokenHash: Id, expiresAt: int)
    | Park(id: Id, notice: StoreModel.Failure)
    | Launch(id: Id)
    | Begin(id: Id)
    | BodyCheckpoint(id: Id, checkpoint: Id, row: Checkpoint)
    | BodyFinalize(id: Id, checkpoint: Id, after: Snapshot, diff: Digest)
    | Finish(id: Id, verdict: Verdict, payload: Payload)
    | Abandon(id: Id)
    | Confirm(id: Id, tokenHash: Id, now: int)
    | Withdraw(id: Id)
    | FinishCancel(id: Id, payload: Payload)
    | ReconcileFailed(id: Id, caller: Id, payload: Payload)
    | ReconcileAsk(id: Id, caller: Id)
    | ReconcileLeave(id: Id)
    | ReconcileEnter(id: Id)
    | ReconcileSeal(id: Id, checkpoint: Id, after: Snapshot, diff: Digest)
    | ReconcileSucceeded(id: Id, payload: Payload)
    | ReconcileAbort(id: Id)
    | MarkRestored(checkpoint: Id)
    | OpenSession(newcomer: Id, project: Id, auth: Option<Identity>)
    | CloseSession(which: Id)
    | RevokeSession(which: Id)
    | CrashAndRecover(outcome: Store)

  /** What is stored of a payload: everything but the plaintext approval token. */
  function Persistable(p: Payload): Payload {
    p.(error := if p.error.Some? then Some(WithoutToken(p.error.value)) else None)
  }

  function WithoutToken(f: StoreModel.Failure): StoreModel.Failure {
    f.(approvalToken := None)
  }

  function FinishOperation(s: Store, id: Id, to: OpState, payload: Payload): Outcome {
    TransitionOperation(s, id, to, None, Some(Persistable(payload)), Persistable(payload).error)
  }

  function VerdictState(v: Verdict): OpState {
    match v
    case Success => Succeeded
    case Failure => Failed
    case Uncertain => Unknown
  }

  /** The operation's mutation checkpoint has been finalized. */
  ghost predicate Sealed(rows: map<Id, Checkpoint>, id: Id) {
    exists c :: c in rows && SealedBy(rows[c], id)
  }

  predicate SealedBy(row: Checkpoint, id: Id) {
    IsMutationOf(row, id) && row.after.Some?
  }

  predicate IsMutationOf(row: Checkpoint, id: Id) {
    row.operation == Some(id) && row.kind == Mutation
  }

  /** The operation has exactly one mutation checkpoint, and that one is not finalized. */
  ghost predicate SoleOpen(rows: map<Id, Checkpoint>, id: Id) {
    exists c :: c in rows && SoleOpenRow(rows, c, id)
  }

  ghost predicate SoleOpenRow(rows: map<Id, Checkpoint>, c: Id, id: Id)
    requires c in rows
  {
    && IsMutationOf(rows[c], id) && rows[c].after.None?
    && forall d :: d in rows && IsMutationOf(rows[d], id) ==> d == c
  }

  /** A session that ended with the service and not by revocation. */
  predicate EndedWithService(x: Session) {
    || (x.status == Blocked && x.reason == Some("bridge_restart"))
    || (x.status == Closed && x.reason == Some("bridge_shutdown"))
  }

  /** Who may reconcile an operation: its own session while that is active; and once it is unknown and its
      session has ended with the service, any active session of the project under the same identity. */
  ghost predicate MayReconcile(s: Store, id: Id, caller: Id) {
    && id in s.operations && caller in s.sessions
    && var o := s.operations[id];
    && s.sessions[caller].project == o.project && s.sessions[caller].status == Active
    && (o.session == Some(caller)
        || (o.state == Unknown && o.session.Some? && o.session.value in s.sessions
            && s.sessions[o.session.value].project == o.project && EndedWithService(s.sessions[o.session.value])
            && SessionIdentityOf(s.audit, o.session.value) == SessionIdentityOf(s.audit, caller)))
  }

  predicate Drives(y: System, id: Id, phase: Phase) {
    id in y.drivers && y.drivers[id] == phase
  }

  predicate Holds(y: System, id: Id) {
    id in y.store.operations && y.store.operations[id].project in y.holders
    && y.holders[y.store.operations[id].project] == id
  }

  /** The driver takes its transaction and moves on, or vanishes when the transaction raises or
      when `phase` says it has nothing left to do. */
  function Drive(y: System, id: Id, o: Outcome, phase: Option<Phase>): System {
    y.(store := Settle(y.store, o),
       drivers := if o.Done? && phase.Some? then y.drivers[id := phase.value] else y.drivers - {id})
  }

  ghost function Next(y: System, l: Step): System {
    if IsDriverStep(l) then DriverNext(y, l)
    else if IsApprovalStep(l) then ApprovalNext(y, l)
    else if IsReconcileStep(l) then ReconcileNext(y, l)
    else SideNext(y, l)
  }

  predicate IsDriverStep(l: Step) {
    l.Validate? || l.Reject? || l.Park? || l.Launch? || l.Begin? || l.Finish? || l.FinishCancel?
  }

  predicate IsApprovalStep(l: Step) {
    l.Issue? || l.Confirm? || l.Withdraw?
  }

  predicate IsReconcileStep(l: Step) {
    || l.ReconcileFailed? || l.ReconcileAsk? || l.ReconcileLeave? || l.ReconcileEnter?
    || l.ReconcileSucceeded? || l.ReconcileAbort?
  }

  function DriverNext(y: System, l: Step): System
    requires IsDriverStep(l)
  {
    var s := y.store;
    match l
    case Validate(id) =>
      if !Drives(y, id, Accepted) then y
      else Drive(y, id, TransitionOperation(s, id, Validated, Some(Received), None, None), Some(Checked))
    case Reject(id, payload) =>
      if !Drives(y, id, Checked) then y
      else Drive(y, id, FinishOperation(s, id, Failed, payload), None)
    case Park(id, notice) =>
      if !Drives(y, id, Granted) then y
      else Drive(y, id, TransitionOperation(s, id, AwaitingApproval, Some(Validated), None,
                                            Some(WithoutToken(notice))), None)
    case Launch(id) =>
      if Drives(y, id, Checked) then
        Drive(y, id, TransitionOperation(s, id, Dispatched, Some(Validated), None, None), Some(Launched))
      else if Drives(y, id, Approved) then
        Drive(y, id, TransitionOperation(s, id, Dispatched, Some(AwaitingApproval), None, None), Some(Launched))
      else y
    case Begin(id) =>
      if !Drives(y, id, Launched) then y
      else Drive(y, id, TransitionOperation(s, id, Running, Some(Dispatched), None, None), Some(InBody))
    case Finish(id, verdict, payload) =>
      if !Drives(y, id, InBody) then y
      else Drive(y, id, FinishOperation(s, id, VerdictState(verdict), payload), None)
    case FinishCancel(id, payload) =>
      if !Drives(y, id, Withdrawing) then y
      else Drive(y, id, FinishOperation(s, id, Cancelled, payload), None)
  }

  function ApprovalNext(y: System, l: Step): System
    requires IsApprovalStep(l)
  {
    var s := y.store;
    match l
    case Issue(id, tokenHash, expiresAt) =>
      if !Drives(y, id, Checked) then y
      else Drive(y, id, CreateApproval(s, id, tokenHash, expiresAt), Some(Granted))
    case Confirm(id, tokenHash, now) =>
      if AwaitingApproval !in Trail(s.audit, id) || ConsumeApproval(s, id, tokenHash, now).Raised? then y
      else Drive(y, id, ConsumeApproval(s, id, tokenHash, now), Some(Approved))
    case Withdraw(id) =>
      if AwaitingApproval !in Trail(s.audit, id) || CancelApproval(s, id).Raised? then y
      else Drive(y, id, CancelApproval(s, id), Some(Withdrawing))
  }

  ghost function ReconcileNext(y: System, l: Step): System
    requires IsReconcileStep(l)
  {
    var s := y.store;
    match l
    case ReconcileFailed(id, caller, payload) =>
      if !MayReconcile(s, id, caller) || s.operations[id].state != Unknown then y
      else y.(store := Settle(s, FinishOperation(s, id, Failed, payload)))
    case ReconcileAsk(id, caller) =>
      if !MayReconcile(s, id, caller) || s.operations[id].state != Unknown then y
      else y.(waiting := y.waiting + multiset{id})
    case ReconcileLeave(id) => y.(waiting := y.waiting - multiset{id})
    case ReconcileEnter(id) =>
      if id !in y.waiting || id !in s.operations || s.operations[id].project in y.holders then y
      else if !SoleOpen(s.checkpoints, id) then y.(waiting := y.waiting - multiset{id})
      else y.(waiting := y.waiting - multiset{id}, holders := y.holders[s.operations[id].project := id])
    case ReconcileSucceeded(id, payload) =>
      if !Holds(y, id) || !Sealed(s.checkpoints, id) then y
      else y.(store := Settle(s, FinishOperation(s, id, Succeeded, payload)),
              holders := y.holders - {s.operations[id].project})
    case ReconcileAbort(id) =>
      if !Holds(y, id) then y else y.(holders := y.holders - {s.operations[id].project})
  }

  /** Session ids are drawn fresh: no stored operation names the id of a session that is yet to be opened. */
  ghost predicate NamedByOperation(s: Store, x: Id) {
    exists id :: id in s.operations && s.operations[id].session == Some(x)
  }

  /** One transaction of a shutdown: an active session becomes closing, a closing one closed. */
  function Shutting(s: Store, x: Id): Outcome {
    if x !in s.sessions || !Open(s.sessions[x]) then Raised(RowNotFound)
    else TransitionSession(s, x, if s.sessions[x].status == Active then Closing else Closed, Some("bridge_shutdown"))
  }

  /** The removal of a project blocks its open sessions. */
  function Revoking(s: Store, x: Id): Outcome {
    if x !in s.sessions || !Open(s.sessions[x]) then Raised(RowNotFound)
    else TransitionSession(s, x, Blocked, Some("project_removed"))
  }

  ghost function SideNext(y: System, l: Step): System {
    var s := y.store;
    match l
    case Accept(id, project, session, key, hash, mutation) =>
      (match CreateOperation(s, id, project, session, key, hash, mutation)
       case Inserted(t) => y.(store := t, drivers := y.drivers[id := Accepted])
       case _ => y)
    case RecordIdentity(id, identity) =>
      if !Drives(y, id, Accepted) then y
      else y.(store := Settle(s, RecordOperationAuth(s, id, identity)))
    case BodyCheckpoint(id, c, row) =>
      if !Drives(y, id, InBody) || row.operation != Some(id) then y
      else y.(store := Settle(s, CreateCheckpoint(s, c, row)))
    case BodyFinalize(id, c, after, diff) =>
      if !Drives(y, id, InBody) || c !in s.checkpoints || s.checkpoints[c].operation != Some(id) then y
      else y.(store := Settle(s, FinalizeCheckpoint(s, c, after, diff)))
    case Abandon(id) => y.(drivers := y.drivers - {id})
    case ReconcileSeal(id, c, after, diff) =>
      if !Holds(y, id) || c !in s.checkpoints || !IsMutationOf(s.checkpoints[c], id) then y
      else y.(store := Settle(s, FinalizeCheckpoint(s, c, after, diff)))
    case MarkRestored(c) => y.(store := Settle(s, MarkCheckpointRestored(s, c)))
    case OpenSession(x, project, auth) =>
      if NamedByOperation(s, x) then y else y.(store := Settle(s, CreateSession(s, x, project, auth)))
    case CloseSession(x) => y.(store := Settle(s, Shutting(s, x)))
    case RevokeSession(x) => y.(store := Settle(s, Revoking(s, x)))
    case CrashAndRecover(t) => if Recovered(s, t) then System(t, map[], multiset{}, map[]) else y
    case _ => y
  }

  ghost function Run(y: System, steps: seq<Step>): System {
    if steps == [] then y else Next(Run(y, steps[..|steps| - 1]), steps[|steps| - 1])
  }

  // ---------------------------------------------------------------- the invariant

  /** The operation's row against its approval, its history and its checkpoints. */
  ghost predicate RowHolds(s: Store, id: Id)
    requires id in s.operations
  {
    var o := s.operations[id];
    && (id in s.approvals ==> ApprovalMatches(s.approvals[id].status, o.state))
    && (o.state == Succeeded ==> o.result.Some?)
    && (o.state == Failed || o.state == Cancelled ==> o.result.Some? || o.error.Some?)
    && (o.state == Cancelled ==> Running !in Trail(s.audit, id))
    && (o.state == Succeeded && Unknown in Trail(s.audit, id) ==> Sealed(s.checkpoints, id))
    && (o.result.Some? ==> o.result.value == Persistable(o.result.value))
    && (o.error.Some? ==> o.error.value.approvalToken.None?)
  }

  predicate ApprovalMatches(a: ApprovalStatus, st: OpState) {
    match st
    case Received => false
    case Validated => a == Pending
    case AwaitingApproval => true
    case Dispatched => a == Consumed
    case Running => a == Consumed
    case Succeeded => a == Consumed
    case Unknown => a == Consumed
    case Failed => a != Pending
    case Cancelled => a != Pending
  }

  ghost predicate DriverHolds(s: Store, id: Id, phase: Phase) {
    && id in s.operations
    && match phase
       case Accepted => s.operations[id].state == Received
       case Checked => s.operations[id].state == Validated && id !in s.approvals
       case Granted => s.operations[id].state == Validated && id in s.approvals
       case Launched => s.operations[id].state == Dispatched
       case InBody => s.operations[id].state == Running
       case Approved =>
         s.operations[id].state == AwaitingApproval && id in s.approvals && s.approvals[id].status == Consumed
       case Withdrawing =>
         s.operations[id].state == AwaitingApproval && id in s.approvals && s.approvals[id].status == Withdrawn
  }

  ghost predicate HolderHolds(s: Store, project: Id, id: Id) {
    && id in s.operations && s.operations[id].project == project
    && Unknown in Trail(s.audit, id) && s.operations[id].state != Succeeded
    && (SoleOpen(s.checkpoints, id) || Sealed(s.checkpoints, id))
  }

  ghost predicate WaiterHolds(s: Store, id: Id) {
    id in s.operations && Unknown in Trail(s.audit, id)
  }

  ghost predicate Invariant(y: System) {
    && Consistent(y.store)
    && (forall id :: id in y.store.operations ==> RowHolds(y.store, id))
    && (forall id :: id in y.drivers ==> DriverHolds(y.store, id, y.drivers[id]))
    && (forall id :: id in y.waiting ==> WaiterHolds(y.store, id))
    && (forall p :: p in y.holders ==> HolderHolds(y.store, p, y.holders[p]))
  }

  // ---------------------------------------------------------------- preservation

  /** What a row's part of the invariant depends on. */
  ghost predicate SameRow(s: Store, t: Store, id: Id) {
    && (id in s.operations <==> id in t.operations)
    && (id in s.operations ==> s.operations[id] == t.operations[id])
    && (id in s.approvals <==> id in t.approvals)
    && (id in s.approvals ==> s.approvals[id] == t.approvals[id])
    && Trail(s.audit, id) == Trail(t.audit, id)
    && (Sealed(s.checkpoints, id) ==> Sealed(t.checkpoints, id))
    && SoleKept(s.checkpoints, t.checkpoints, id)
  }

  /** A sole open mutation checkpoint stays it until it is finalized. */
  ghost predicate SoleKept(old': map<Id, Checkpoint>, new': map<Id, Checkpoint>, id: Id) {
    SoleOpen(old', id) ==> SoleOpen(new', id) || Sealed(new', id)
  }

  lemma SameRowKeeps(s: Store, t: Store, id: Id)
    requires SameRow(s, t, id)
    ensures id in s.operations && RowHolds(s, id) ==> RowHolds(t, id)
    ensures forall phase :: DriverHolds(s, id, phase) ==> DriverHolds(t, id, phase)
    ensures forall p :: HolderHolds(s, p, id) ==> HolderHolds(t, p, id)
    ensures WaiterHolds(s, id) ==> WaiterHolds(t, id)
  {
    hide Trail;
    hide Sealed;
    hide SoleOpen;
  }

  /** A step that leaves every row but `id` alone keeps the invariant if it keeps it at `id`. */
  lemma OneRow(y: System, z: System, id: Id)
    requires Invariant(y) && Consistent(z.store)
    requires forall other :: other != id ==> SameRow(y.store, z.store, other)
    requires id in z.store.operations ==> RowHolds(z.store, id)
    requires forall d :: d in z.drivers && d != id ==> d in y.drivers && y.drivers[d] == z.drivers[d]
    requires id in z.drivers ==> DriverHolds(z.store, id, z.drivers[id])
    requires forall w :: w in z.waiting ==> if w == id then WaiterHolds(z.store, id) else w in y.waiting
    requires forall p :: p in z.holders ==>
               if z.holders[p] == id then HolderHolds(z.store, p, id)
               else p in y.holders && y.holders[p] == z.holders[p]
    ensures Invariant(z)
  {
    hide Consistent;
    hide RowHolds;
    hide DriverHolds;
    hide HolderHolds;
    hide WaiterHolds;
    hide Trail;
    forall other | other in z.store.operations ensures RowHolds(z.store, other) {
      if other != id { SameRowKeeps(y.store, z.store, other); }
    }
    forall d | d in z.drivers ensures DriverHolds(z.store, d, z.drivers[d]) {
      if d != id { SameRowKeeps(y.store, z.store, d); }
    }
    forall w | w in z.waiting ensures WaiterHolds(z.store, w) {
      if w != id { SameRowKeeps(y.store, z.store, w); }
    }
    forall p | p in z.holders ensures HolderHolds(z.store, p, z.holders[p]) {
      if z.holders[p] != id { SameRowKeeps(y.store, z.store, z.holders[p]); }
    }
  }

  /** The states an operation has entered, ranked against the one it is in; none without a row. */
  lemma RowHistory(s: Store, id: Id)
    requires Consistent(s)
    ensures forall st :: st in Trail(s.audit, id) ==>
              id in s.operations
              && (st == s.operations[id].state || Rank(st) < Rank(s.operations[id].state))
    ensures id !in s.operations ==> Trail(s.audit, id) == [] && id !in s.approvals
  {
    EntersEachStateOnce(s, id);
    TrailIsPath(s.audit, id);
  }

  /** The moved row keeps its part of the invariant. */
  lemma TransitionedRow(s: Store, t: Store, id: Id, to: OpState, expected: Option<OpState>,
                        result: Option<Payload>, error: Option<StoreModel.Failure>)
    requires Consistent(s) && id in s.operations && RowHolds(s, id)
    requires var row := s.operations[id];
             && (expected.Some? ==> row.state == expected.value) && OperationEdge(row.state, to)
             && row.state != Unknown
    requires result.Some? ==> result.value == Persistable(result.value)
    requires error.Some? ==> error.value.approvalToken.None?
    requires to == Succeeded || to == Failed || to == Cancelled ==> result.Some?
    requires to == Cancelled ==> s.operations[id].state == AwaitingApproval
    requires id in s.approvals ==> ApprovalMatches(s.approvals[id].status, to)
    requires t == Settle(s, TransitionOperation(s, id, to, expected, result, error)) && id in t.operations
    ensures RowHolds(t, id)
  {
    hide Consistent;
    hide Trail;
    hide Sealed;
    TransitionOperationConsistent(s, id, to, expected, result, error);
    RowHistory(s, id);
  }

  /** What a driver executes is not being reconciled. */
  lemma NotReconciled(y: System, id: Id)
    requires Invariant(y) && id in y.drivers
    ensures id !in y.waiting && forall p :: p in y.holders ==> y.holders[p] != id
    ensures id in y.store.operations && RowHolds(y.store, id) && Consistent(y.store)
  {
    hide Consistent;
    hide RowHolds;
    hide Trail;
    hide Sealed;
    hide SoleOpen;
    RowHistory(y.store, id);
  }

  /** A driver's transition of its own row. */
  lemma DriveTransition(y: System, id: Id, to: OpState, expected: Option<OpState>,
                        result: Option<Payload>, error: Option<StoreModel.Failure>, phase: Option<Phase>)
    requires Invariant(y) && id in y.drivers
    requires var row := y.store.operations[id];
             && (expected.Some? ==> row.state == expected.value) && OperationEdge(row.state, to)
             && row.state != Unknown
    requires result.Some? ==> result.value == Persistable(result.value)
    requires error.Some? ==> error.value.approvalToken.None?
    requires to == Succeeded || to == Failed || to == Cancelled ==> result.Some?
    requires to == Cancelled ==> y.store.operations[id].state == AwaitingApproval
    requires id in y.store.approvals ==> ApprovalMatches(y.store.approvals[id].status, to)
    requires var o := TransitionOperation(y.store, id, to, expected, result, error);
             phase.Some? ==> DriverHolds(Settle(y.store, o), id, phase.value)
    ensures Invariant(Drive(y, id, TransitionOperation(y.store, id, to, expected, result, error), phase))
  {
    hide Consistent;
    hide Trail;
    hide RowHolds;
    hide ApprovalMatches;
    hide HolderHolds;
    hide WaiterHolds;
    var s := y.store;
    var o := TransitionOperation(s, id, to, expected, result, error);
    TransitionOperationConsistent(s, id, to, expected, result, error);
    NotReconciled(y, id);
    TransitionedRow(s, Settle(s, o), id, to, expected, result, error);
    OneRow(y, Drive(y, id, o, phase), id);
  }

  lemma AcceptKeeps(y: System, l: Step)
    requires Invariant(y) && l.Accept?
    ensures Invariant(SideNext(y, l))
  {
    hide Consistent;
    hide Trail;
    var s, z := y.store, SideNext(y, l);
    var r := CreateOperation(s, l.id, l.project, l.session, l.key, l.hash, l.mutation);
    if r.Inserted? {
      InsertOperationConsistent(s, l.id, l.project, l.session, l.key, l.hash, l.mutation);
      RowHistory(s, l.id);
      OneRow(y, z, l.id);
    }
  }

  lemma ValidateKeeps(y: System, l: Step)
    requires Invariant(y) && l.Validate?
    ensures Invariant(DriverNext(y, l))
  {
    hide Consistent;
    hide Trail;
    hide Sealed;
    hide SoleOpen;
    hide HolderHolds;
    if Drives(y, l.id, Accepted) {
      DriveTransition(y, l.id, Validated, Some(Received), None, None, Some(Checked));
    }
  }

  lemma ParkKeeps(y: System, l: Step)
    requires Invariant(y) && l.Park?
    ensures Invariant(DriverNext(y, l))
  {
    hide Consistent;
    hide Trail;
    hide Sealed;
    hide SoleOpen;
    hide HolderHolds;
    if Drives(y, l.id, Granted) {
      DriveTransition(y, l.id, AwaitingApproval, Some(Validated), None, Some(WithoutToken(l.notice)), None);
    }
  }

  lemma BeginKeeps(y: System, l: Step)
    requires Invariant(y) && l.Begin?
    ensures Invariant(DriverNext(y, l))
  {
    hide Consistent;
    hide Trail;
    hide Sealed;
    hide SoleOpen;
    hide HolderHolds;
    if Drives(y, l.id, Launched) {
      DriveTransition(y, l.id, Running, Some(Dispatched), None, None, Some(InBody));
    }
  }

  lemma LaunchKeeps(y: System, l: Step)
    requires Invariant(y) && l.Launch?
    ensures Invariant(DriverNext(y, l))
  {
    hide Consistent;
    hide Trail;
    hide Sealed;
    hide SoleOpen;
    hide HolderHolds;
    hide WaiterHolds;
    if Drives(y, l.id, Checked) {
      DriveTransition(y, l.id, Dispatched, Some(Validated), None, None, Some(Launched));
    } else if Drives(y, l.id, Approved) {
      DriveTransition(y, l.id, Dispatched, Some(AwaitingApproval), None, None, Some(Launched));
    }
  }

  lemma RejectKeeps(y: System, l: Step)
    requires Invariant(y) && l.Reject?
    ensures Invariant(DriverNext(y, l))
  {
    hide Consistent;
    hide Trail;
    hide Sealed;
    hide SoleOpen;
    hide HolderHolds;
    var stored := Persistable(l.payload);
    if Drives(y, l.id, Checked) {
      DriveTransition(y, l.id, Failed, None, Some(stored), stored.error, None);
    }
  }

  lemma FinishKeeps(y: System, l: Step)
    requires Invariant(y) && l.Finish?
    ensures Invariant(DriverNext(y, l))
  {
    hide Consistent;
    hide Trail;
    hide Sealed;
    hide SoleOpen;
    hide HolderHolds;
    var stored := Persistable(l.payload);
    if Drives(y, l.id, InBody) {
      DriveTransition(y, l.id, VerdictState(l.verdict), None, Some(stored), stored.error, None);
    }
  }

  lemma CancelKeeps(y: System, l: Step)
    requires Invariant(y) && l.FinishCancel?
    ensures Invariant(DriverNext(y, l))
  {
    hide Consistent;
    hide Trail;
    hide Sealed;
    hide SoleOpen;
    hide HolderHolds;
    var stored := Persistable(l.payload);
    if Drives(y, l.id, Withdrawing) {
      DriveTransition(y, l.id, Cancelled, None, Some(stored), stored.error, None);
    }
  }

  /** An approval row was written; the operation's row keeps its part of the invariant. */
  lemma ApprovalRow(s: Store, t: Store, id: Id)
    requires Consistent(s) && Consistent(t) && id in s.operations && RowHolds(s, id)
    requires t.operations == s.operations && t.checkpoints == s.checkpoints && id in t.approvals
    requires t.approvals == s.approvals[id := t.approvals[id]]
    requires forall o :: Trail(t.audit, o) == Trail(s.audit, o)
    requires ApprovalMatches(t.approvals[id].status, s.operations[id].state)
    ensures RowHolds(t, id) && forall other :: other != id ==> SameRow(s, t, other)
  {
    hide Consistent;
    hide Trail;
    hide Sealed;
    hide SoleOpen;
  }

  lemma IssueKeeps(y: System, l: Step)
    requires Invariant(y) && l.Issue?
    ensures Invariant(ApprovalNext(y, l))
  {
    hide Consistent;
    hide RowHolds;
    hide SameRow;
    hide Trail;
    hide HolderHolds;
    var s, t := y.store, ApprovalNext(y, l).store;
    if Drives(y, l.id, Checked) {
      ApprovalStepsConsistent(s, l.id, l.tokenHash, l.expiresAt);
      if t != s { ApprovalRow(s, t, l.id); } else { SameRows(s); }
      HoldersElsewhere(y, t, l.id);
      OneRow(y, ApprovalNext(y, l), l.id);
    }
  }

  /** What is being reconciled is past every state in which its approval is written. */
  lemma HoldersElsewhere(y: System, t: Store, id: Id)
    requires Invariant(y) && t.operations == y.store.operations && t.checkpoints == y.store.checkpoints
    requires id in t.operations && Trail(t.audit, id) == Trail(y.store.audit, id)
    ensures forall p :: p in y.holders && y.holders[p] == id ==> HolderHolds(t, p, id)
    ensures id in y.waiting ==> WaiterHolds(t, id)
  {
    hide Consistent;
    hide RowHolds;
    hide DriverHolds;
    hide Trail;
    hide Sealed;
    hide SoleOpen;
  }

  /** A pending approval that was ever awaited still is. */
  lemma StillAwaited(y: System, id: Id)
    requires Invariant(y) && id in y.store.approvals && y.store.approvals[id].status == Pending
    requires AwaitingApproval in Trail(y.store.audit, id)
    ensures id in y.store.operations && y.store.operations[id].state == AwaitingApproval && RowHolds(y.store, id)
    ensures Consistent(y.store)
  {
    hide Consistent;
    hide Trail;
    hide Sealed;
    hide SoleOpen;
    hide HolderHolds;
    hide DriverHolds;
    hide WaiterHolds;
    RowHistory(y.store, id);
  }

  lemma ConfirmKeeps(y: System, l: Step)
    requires Invariant(y) && l.Confirm?
    ensures Invariant(ApprovalNext(y, l))
  {
    hide Consistent;
    hide SameRow;
    hide Trail;
    hide HolderHolds;
    hide Sealed;
    hide SoleOpen;
    hide RowHolds;
    hide Invariant;
    hide WaiterHolds;
    var s, t := y.store, ApprovalNext(y, l).store;
    if t != s {
      StillAwaited(y, l.id);
      ApprovalStepsConsistent(s, l.id, l.tokenHash, l.now);
      ApprovalRow(s, t, l.id);
      HoldersElsewhere(y, t, l.id);
      OneRow(y, ApprovalNext(y, l), l.id);
    }
  }

  lemma WithdrawKeeps(y: System, l: Step)
    requires Invariant(y) && l.Withdraw?
    ensures Invariant(ApprovalNext(y, l))
  {
    hide Consistent;
    hide SameRow;
    hide Trail;
    hide HolderHolds;
    hide Sealed;
    hide SoleOpen;
    hide RowHolds;
    hide Invariant;
    hide WaiterHolds;
    var s, t := y.store, ApprovalNext(y, l).store;
    if t != s {
      StillAwaited(y, l.id);
      ApprovalStepsConsistent(s, l.id, "", 0);
      ApprovalRow(s, t, l.id);
      HoldersElsewhere(y, t, l.id);
      OneRow(y, ApprovalNext(y, l), l.id);
    }
  }

  /** The row of an unknown operation that is finished keeps its part of the invariant. */
  lemma ReconciledRow(s: Store, id: Id, to: OpState, payload: Payload)
    requires Consistent(s) && id in s.operations && RowHolds(s, id) && s.operations[id].state == Unknown
    requires to == Failed || (to == Succeeded && Sealed(s.checkpoints, id))
    ensures var t := Settle(s, FinishOperation(s, id, to, payload));
            && RowHolds(t, id) && Consistent(t) && forall other :: other != id ==> SameRow(s, t, other)
  {
    hide Consistent;
    hide Sealed;
    hide SoleOpen;
    hide Trail;
    var stored := Persistable(payload);
    TransitionOperationConsistent(s, id, to, None, Some(stored), stored.error);
    RowHistory(s, id);
  }

  lemma ReconcileFailedKeeps(y: System, l: Step)
    requires Invariant(y) && l.ReconcileFailed?
    ensures Invariant(ReconcileNext(y, l))
  {
    hide Consistent;
    hide RowHolds;
    hide Sealed;
    hide SoleOpen;
    hide Trail;
    hide SameRow;
    hide MayReconcile;
    if ReconcileNext(y, l) != y {
      MayMeans(y.store, l.id, l.caller);
      ReconciledRow(y.store, l.id, Failed, l.payload);
      RowHistory(y.store, l.id);
      FinishedTrail(y.store, l.id, Failed, l.payload);
      OneRow(y, ReconcileNext(y, l), l.id);
    }
  }

  lemma MayMeans(s: Store, id: Id, caller: Id)
    requires MayReconcile(s, id, caller)
    ensures id in s.operations && caller in s.sessions && s.sessions[caller].project == s.operations[id].project
  {
    hide SessionIdentityOf;
  }

  lemma FinishedTrail(s: Store, id: Id, to: OpState, payload: Payload)
    requires Consistent(s) && id in s.operations && s.operations[id].state == Unknown && (to == Failed || to == Succeeded)
    ensures var t := Settle(s, FinishOperation(s, id, to, payload));
            && t.operations.Keys == s.operations.Keys && t.checkpoints == s.checkpoints
            && t.operations[id].state == to && t.operations[id].project == s.operations[id].project
            && Trail(t.audit, id) == Trail(s.audit, id) + [to]
  {
    hide Consistent;
    hide Trail;
    var stored := Persistable(payload);
    TransitionOperationConsistent(s, id, to, None, Some(stored), stored.error);
  }

  lemma ReconcileSucceededKeeps(y: System, l: Step)
    requires Invariant(y) && l.ReconcileSucceeded?
    ensures Invariant(ReconcileNext(y, l))
  {
    hide Consistent;
    hide RowHolds;
    hide Sealed;
    hide SoleOpen;
    hide Trail;
    hide SameRow;
    if Holds(y, l.id) && Sealed(y.store.checkpoints, l.id) {
      assert HolderHolds(y.store, y.store.operations[l.id].project, l.id);
      if y.store.operations[l.id].state == Unknown {
        ReconciledRow(y.store, l.id, Succeeded, l.payload);
        RowHistory(y.store, l.id);
        FinishedTrail(y.store, l.id, Succeeded, l.payload);
        OneRow(y, ReconcileNext(y, l), l.id);
      } else {
        RowHistory(y.store, l.id);
        SameRows(y.store);
        OneRow(y, ReconcileNext(y, l), l.id);
      }
    }
  }

  lemma SameRows(s: Store)
    ensures forall id :: SameRow(s, s, id)
  {
  }

  /** Only the queue for the lock and its holders changed. */
  lemma LockOnly(y: System, z: System)
    requires Invariant(y) && z.store == y.store && z.drivers == y.drivers
    requires forall id :: id in z.waiting ==> WaiterHolds(y.store, id)
    requires forall p :: p in z.holders ==> HolderHolds(y.store, p, z.holders[p])
    ensures Invariant(z)
  {
    hide Consistent;
    hide RowHolds;
    hide DriverHolds;
    hide HolderHolds;
    hide WaiterHolds;
  }

  lemma AskKeeps(y: System, l: Step)
    requires Invariant(y) && l.ReconcileAsk?
    ensures Invariant(ReconcileNext(y, l))
  {
    hide Consistent;
    hide RowHolds;
    hide DriverHolds;
    hide HolderHolds;
    hide Trail;
    hide MayReconcile;
    hide SoleOpen;
    hide Sealed;
    if ReconcileNext(y, l) != y {
      MayMeans(y.store, l.id, l.caller);
      AsksWhileUnknown(y.store, l.id);
      LockOnly(y, ReconcileNext(y, l));
    }
  }

  lemma LeaveKeeps(y: System, l: Step)
    requires Invariant(y) && (l.ReconcileLeave? || l.ReconcileAbort?)
    ensures Invariant(ReconcileNext(y, l))
  {
    hide Consistent;
    hide RowHolds;
    hide DriverHolds;
    hide HolderHolds;
    hide WaiterHolds;
    hide MayReconcile;
    hide SoleOpen;
    hide Sealed;
    LockOnly(y, ReconcileNext(y, l));
  }

  lemma EnterKeeps(y: System, l: Step)
    requires Invariant(y) && l.ReconcileEnter?
    ensures Invariant(ReconcileNext(y, l))
  {
    hide Consistent;
    hide RowHolds;
    hide DriverHolds;
    hide Trail;
    hide MayReconcile;
    hide SoleOpen;
    hide Sealed;
    NotOpenAndSucceeded(y, l.id);
    LockOnly(y, ReconcileNext(y, l));
  }

  lemma AsksWhileUnknown(s: Store, id: Id)
    requires Consistent(s) && id in s.operations && s.operations[id].state == Unknown
    ensures Unknown in Trail(s.audit, id)
  {
    TrailIsPath(s.audit, id);
  }

  /** What succeeded after having been unknown has a finalized checkpoint. */
  lemma NotOpenAndSucceeded(y: System, id: Id)
    requires Invariant(y)
    ensures id in y.waiting && SoleOpen(y.store.checkpoints, id) ==> y.store.operations[id].state != Succeeded
  {
    hide Consistent;
    hide Trail;
  }

  /** One checkpoint row was rewritten. */
  ghost predicate RowRewritten(s: Store, t: Store, c: Id) {
    && t.sessions == s.sessions && t.operations == s.operations && t.approvals == s.approvals
    && (t == s
        || (c in s.checkpoints && c in t.checkpoints
            && t.checkpoints == s.checkpoints[c := t.checkpoints[c]]
            && t.checkpoints[c].operation == s.checkpoints[c].operation
            && t.checkpoints[c].kind == s.checkpoints[c].kind
            && (s.checkpoints[c].after.Some? ==> t.checkpoints[c].after.Some?)))
    && forall id :: Trail(t.audit, id) == Trail(s.audit, id)
  }

  lemma RewriteKeeps(y: System, t: Store, c: Id)
    requires Invariant(y) && Consistent(t) && RowRewritten(y.store, t, c)
    ensures Invariant(y.(store := t))
  {
    hide Consistent;
    hide Trail;
    hide RowHolds;
    hide DriverHolds;
    hide HolderHolds;
    hide Sealed;
    hide SoleOpen;
    forall id ensures SameRow(y.store, t, id) {
      if t != y.store { RewrittenRows(y.store.checkpoints, t.checkpoints, c, id); }
    }
    AllRows(y, y.(store := t));
  }

  lemma RewrittenRows(old': map<Id, Checkpoint>, new': map<Id, Checkpoint>, c: Id, id: Id)
    requires c in old' && c in new' && new' == old'[c := new'[c]]
    requires new'[c].operation == old'[c].operation && new'[c].kind == old'[c].kind
    requires old'[c].after.Some? ==> new'[c].after.Some?
    ensures Sealed(old', id) ==> Sealed(new', id)
    ensures SoleKept(old', new', id)
  {
    if d :| d in old' && SealedBy(old'[d], id) { assert SealedBy(new'[d], id); }
    if d :| d in old' && SoleOpenRow(old', d, id) {
      assert SealedBy(new'[d], id) || SoleOpenRow(new', d, id);
    }
  }

  lemma FinalizeRewrites(s: Store, c: Id, after: Snapshot, diff: Digest)
    requires Consistent(s)
    ensures var t := Settle(s, FinalizeCheckpoint(s, c, after, diff)); Consistent(t) && RowRewritten(s, t, c)
  {
    hide Consistent;
    hide Trail;
    FinalizeCheckpointConsistent(s, c, after, diff);
  }

  lemma RestoredRewrites(s: Store, c: Id)
    requires Consistent(s)
    ensures var t := Settle(s, MarkCheckpointRestored(s, c)); Consistent(t) && RowRewritten(s, t, c)
  {
    hide Consistent;
    hide Trail;
    MarkRestoredConsistent(s, c);
  }

  /** A running operation gets a checkpoint; one that is being reconciled is past running. */
  lemma CreateCheckpointKeeps(y: System, id: Id, c: Id, row: Checkpoint)
    requires Invariant(y) && Drives(y, id, InBody) && row.operation == Some(id)
    ensures Invariant(y.(store := Settle(y.store, CreateCheckpoint(y.store, c, row))))
  {
    hide Consistent;
    hide Trail;
    hide Sealed;
    hide SoleOpen;
    hide HolderHolds;
    hide WaiterHolds;
    var t := Settle(y.store, CreateCheckpoint(y.store, c, row));
    CreateCheckpointConsistent(y.store, c, row);
    NotReconciled(y, id);
    forall other | other != id ensures SameRow(y.store, t, other) {
      RowAddedElsewhere(y.store.checkpoints, t.checkpoints, c, id, other);
    }
    OneRow(y, y.(store := t), id);
  }

  lemma RowAddedElsewhere(old': map<Id, Checkpoint>, new': map<Id, Checkpoint>, c: Id, id: Id, other: Id)
    requires new' == old' || (c !in old' && c in new' && new' == old'[c := new'[c]] && new'[c].operation == Some(id))
    requires other != id
    ensures Sealed(old', other) ==> Sealed(new', other)
    ensures SoleKept(old', new', other)
  {
    if d :| d in old' && SealedBy(old'[d], other) { assert SealedBy(new'[d], other); }
    if d :| d in old' && SoleOpenRow(old', d, other) { assert SoleOpenRow(new', d, other); }
  }

  lemma CheckpointStepKeeps(y: System, l: Step)
    requires Invariant(y) && (l.BodyCheckpoint? || l.BodyFinalize? || l.ReconcileSeal? || l.MarkRestored?)
    ensures Invariant(SideNext(y, l))
  {
    hide Consistent;
    hide RowHolds;
    hide DriverHolds;
    hide HolderHolds;
    hide RowRewritten;
    hide Sealed;
    if l.BodyCheckpoint? {
      if Drives(y, l.id, InBody) && l.row.operation == Some(l.id) { CreateCheckpointKeeps(y, l.id, l.checkpoint, l.row); }
    } else if l.MarkRestored? {
      RestoredRewrites(y.store, l.checkpoint);
      RewriteKeeps(y, Settle(y.store, MarkCheckpointRestored(y.store, l.checkpoint)), l.checkpoint);
    } else {
      FinalizeRewrites(y.store, l.checkpoint, l.after, l.diff);
      RewriteKeeps(y, Settle(y.store, FinalizeCheckpoint(y.store, l.checkpoint, l.after, l.diff)), l.checkpoint);
    }
  }

  lemma SessionStepKeeps(y: System, l: Step)
    requires Invariant(y) && (l.RecordIdentity? || l.OpenSession? || l.CloseSession? || l.RevokeSession? || l.Abandon?)
    ensures Invariant(SideNext(y, l))
  {
    hide Consistent;
    hide Trail;
    hide Sealed;
    hide RowHolds;
    hide DriverHolds;
    hide HolderHolds;
    hide Recovered;
    hide CreateOperation;
    hide SameRow;
    hide NamedByOperation;
    hide Shutting;
    hide Revoking;
    hide CreateSession;
    hide RecordOperationAuth;
    SameRows(y.store);
    match l {
      case RecordIdentity(id, identity) => RecordAuthKeeps(y.store, id, identity);
      case OpenSession(x, project, auth) => SessionsKeep(y.store, CreateSession(y.store, x, project, auth), x, project, auth);
      case CloseSession(x) => SessionsKeep(y.store, Shutting(y.store, x), x, "", None);
      case RevokeSession(x) => SessionsKeep(y.store, Revoking(y.store, x), x, "", None);
      case Abandon(id) =>
    }
    AllRows(y, SideNext(y, l));
  }

  lemma RecordAuthKeeps(s: Store, id: Id, identity: Identity)
    requires Consistent(s)
    ensures var t := Settle(s, RecordOperationAuth(s, id, identity));
            Consistent(t) && forall other :: SameRow(s, t, other)
  {
    hide Consistent;
    hide Trail;
    hide Sealed;
    hide SoleOpen;
    RecordAuthConsistent(s, id, identity);
  }

  lemma SessionsKeep(s: Store, o: Outcome, x: Id, project: Id, auth: Option<Identity>)
    requires Consistent(s)
    requires o == CreateSession(s, x, project, auth) || o == Shutting(s, x) || o == Revoking(s, x)
    ensures Consistent(Settle(s, o)) && forall other :: SameRow(s, Settle(s, o), other)
  {
    hide Consistent;
    hide Trail;
    hide Sealed;
    hide SoleOpen;
    CreateSessionConsistent(s, x, project, auth);
    TransitionSessionConsistent(s, x, Closing, Some("bridge_shutdown"));
    TransitionSessionConsistent(s, x, Closed, Some("bridge_shutdown"));
    TransitionSessionConsistent(s, x, Blocked, Some("project_removed"));
  }

  lemma AllRows(y: System, z: System)
    requires Invariant(y) && Consistent(z.store)
    requires forall other :: SameRow(y.store, z.store, other)
    requires forall d :: d in z.drivers ==> d in y.drivers && y.drivers[d] == z.drivers[d]
    requires z.holders == y.holders && z.waiting == y.waiting
    ensures Invariant(z)
  {
    hide Consistent;
    hide RowHolds;
    hide DriverHolds;
    hide HolderHolds;
    hide WaiterHolds;
    hide Trail;
    forall other | other in z.store.operations ensures RowHolds(z.store, other) {
      SameRowKeeps(y.store, z.store, other);
    }
    forall d | d in z.drivers ensures DriverHolds(z.store, d, z.drivers[d]) {
      SameRowKeeps(y.store, z.store, d);
    }
    forall w | w in z.waiting ensures WaiterHolds(z.store, w) {
      SameRowKeeps(y.store, z.store, w);
    }
    forall p | p in z.holders ensures HolderHolds(z.store, p, z.holders[p]) {
      SameRowKeeps(y.store, z.store, z.holders[p]);
    }
  }

  lemma CrashKeeps(y: System, l: Step)
    requires Invariant(y) && l.CrashAndRecover?
    ensures Invariant(SideNext(y, l))
  {
    var s, t := y.store, l.outcome;
    if Recovered(s, t) {
      RecoveryConsistent(s, t);
      hide Consistent;
      hide RowHolds;
      forall id | id in t.operations ensures RowHolds(t, id) {
        RecoveredRow(s, t, id);
      }
    }
  }

  lemma RecoveredRow(s: Store, t: Store, id: Id)
    requires Consistent(s) && Recovered(s, t) && id in s.operations && RowHolds(s, id)
    ensures RowHolds(t, id)
  {
    hide Consistent;
    hide HistoryHolds;
    hide Trail;
    hide Sealed;
    RowHistory(s, id);
    assert Trail(t.audit, id) == Trail(s.audit, id) + Moved(s, t, id);
  }

  lemma KeepsInvariant(y: System, l: Step)
    requires Invariant(y)
    ensures Invariant(Next(y, l))
  {
    hide Invariant;
    hide SideNext;
    hide DriverNext;
    hide ApprovalNext;
    hide ReconcileNext;
    if l.Reject? { RejectKeeps(y, l); }
    else if l.Finish? { FinishKeeps(y, l); }
    else if l.FinishCancel? { CancelKeeps(y, l); }
    else if l.Launch? { LaunchKeeps(y, l); }
    else if l.Validate? { ValidateKeeps(y, l); }
    else if l.Park? { ParkKeeps(y, l); }
    else if l.Begin? { BeginKeeps(y, l); }
    else if l.Issue? { IssueKeeps(y, l); }
    else if l.Confirm? { ConfirmKeeps(y, l); }
    else if l.Withdraw? { WithdrawKeeps(y, l); }
    else if l.ReconcileFailed? { ReconcileFailedKeeps(y, l); }
    else if l.ReconcileSucceeded? { ReconcileSucceededKeeps(y, l); }
    else if l.ReconcileAsk? { AskKeeps(y, l); }
    else if l.ReconcileEnter? { EnterKeeps(y, l); }
    else if IsReconcileStep(l) { LeaveKeeps(y, l); }
    else if l.Accept? { AcceptKeeps(y, l); }
    else if l.CrashAndRecover? { CrashKeeps(y, l); }
    else if l.RecordIdentity? || l.OpenSession? || l.CloseSession? || l.RevokeSession? || l.Abandon? { SessionStepKeeps(y, l); }
    else { CheckpointStepKeeps(y, l); }
  }

  /** Every reachable system satisfies the invariant. */
  lemma {:induction false} Reachable(steps: seq<Step>)
    ensures Invariant(Run(INITIAL, steps))
  {
    if steps == [] {
      assert StatusesOf(EMPTY_STORE) == Statuses(map[], map[], map[]);
    } else {
      Reachable(steps[..|steps| - 1]);
      KeepsInvariant(Run(INITIAL, steps[..|steps| - 1]), steps[|steps| - 1]);
    }
  }
}
