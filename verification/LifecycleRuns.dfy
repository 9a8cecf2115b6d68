/** What holds over every run of the services. */
module LifecycleRuns {
  import opened Basics
  import opened StoreModel
  import opened AuditHistory
  import opened Lifecycle

  predicate Terminal(st: OpState) {
    st.Succeeded? || st.Failed? || st.Cancelled?
  }

  /** How one step may treat one operation. */
  ghost predicate RowStep(y: System, l: Step, z: System, id: Id) {
    && (id in y.store.operations ==> id in z.store.operations)
    && Trail(z.store.audit, id)
       == Trail(y.store.audit, id) + EnteredState(y.store.operations, z.store.operations, id)
    && (id in y.store.operations && Terminal(y.store.operations[id].state) ==>
          z.store.operations[id] == y.store.operations[id])
    && (id in y.store.operations && y.store.operations[id].state == Unknown
        && z.store.operations[id].state != Unknown ==>
          (l.ReconcileFailed? || l.ReconcileSucceeded?) && l.id == id)
    && (EnteredState(y.store.operations, z.store.operations, id) == [Running] <==>
          l == Begin(id) && Drives(y, id, Launched))
    && (id in z.store.operations ==>
          if id in y.store.operations then
            HoldsSlot(z.store.operations[id]) ==> HoldsSlot(y.store.operations[id])
          else l.Accept? && l.id == id)
    && (id in y.store.operations ==>
          z.store.operations[id].mutation == y.store.operations[id].mutation
          && z.store.operations[id].project == y.store.operations[id].project
          && z.store.operations[id].session == y.store.operations[id].session)
  }

  /** The state an operation moved to, if it moved. */
  function EnteredState(before: map<Id, Operation>, after: map<Id, Operation>, id: Id): seq<OpState> {
    if id in after && (id !in before || before[id].state != after[id].state) then [after[id].state] else []
  }

  lemma DriveRow(y: System, l: Step, d: Id, to: OpState, expected: Option<OpState>,
                 result: Option<Payload>, error: Option<StoreModel.Failure>, phase: Option<Phase>, id: Id)
    requires Consistent(y.store) && d in y.store.operations
    requires var st := y.store.operations[d].state;
             !Terminal(st) && st != Unknown && OperationEdge(st, to) && (expected.Some? ==> st == expected.value)
    requires l != Begin(id) || d == id
    requires to == Running <==> l == Begin(d) && Drives(y, d, Launched)
    ensures RowStep(y, l, Drive(y, d, TransitionOperation(y.store, d, to, expected, result, error), phase), id)
  {
    hide Consistent;
    hide Trail;
    TransitionOperationConsistent(y.store, d, to, expected, result, error);
  }

  /** A step that leaves operations and trails alone. */
  lemma QuietRow(y: System, l: Step, z: System, id: Id)
    requires z.store.operations == y.store.operations && Trail(z.store.audit, id) == Trail(y.store.audit, id)
    requires !(l == Begin(id) && Drives(y, id, Launched))
    ensures RowStep(y, l, z, id)
  {
    hide Trail;
  }

  lemma DriverRowStep(y: System, l: Step, id: Id)
    requires Invariant(y) && IsDriverStep(l)
    ensures RowStep(y, l, DriverNext(y, l), id)
  {
    hide Invariant;
    hide RowStep;
    hide DriverNext;
    if l.Reject? || l.Finish? || l.FinishCancel? { FinishRowStep(y, l, id); } else { AdvanceRowStep(y, l, id); }
  }

  lemma AdvanceRowStep(y: System, l: Step, id: Id)
    requires Invariant(y) && (l.Validate? || l.Park? || l.Launch? || l.Begin?)
    ensures RowStep(y, l, DriverNext(y, l), id)
  {
    hide Consistent;
    hide Trail;
    hide RowHolds;
    hide HolderHolds;
    hide TransitionOperation;
    hide Drive;
    hide RowStep;
    if !(l == Begin(id) && Drives(y, id, Launched)) { QuietRow(y, l, y, id); }
    match l
    case Validate(d) =>
      if Drives(y, d, Accepted) {
        DriveRow(y, l, d, Validated, Some(Received), None, None, Some(Checked), id);
      }
    case Park(d, n) =>
      if Drives(y, d, Granted) {
        DriveRow(y, l, d, AwaitingApproval, Some(Validated), None, Some(WithoutToken(n)), None, id);
      }
    case Launch(d) =>
      if Drives(y, d, Checked) {
        DriveRow(y, l, d, Dispatched, Some(Validated), None, None, Some(Launched), id);
      } else if Drives(y, d, Approved) {
        DriveRow(y, l, d, Dispatched, Some(AwaitingApproval), None, None, Some(Launched), id);
      }
    case Begin(d) =>
      if Drives(y, d, Launched) {
        DriveRow(y, l, d, Running, Some(Dispatched), None, None, Some(InBody), id);
      }
  }

  lemma FinishRowStep(y: System, l: Step, id: Id)
    requires Invariant(y) && (l.Reject? || l.Finish? || l.FinishCancel?)
    ensures RowStep(y, l, DriverNext(y, l), id)
  {
    hide Consistent;
    hide Trail;
    hide RowHolds;
    hide HolderHolds;
    hide TransitionOperation;
    hide Drive;
    hide RowStep;
    QuietRow(y, l, y, id);
    var stored := Persistable(l.payload);
    if l.Reject? && Drives(y, l.id, Checked) {
      DriveRow(y, l, l.id, Failed, None, Some(stored), stored.error, None, id);
    } else if l.Finish? && Drives(y, l.id, InBody) {
      DriveRow(y, l, l.id, VerdictState(l.verdict), None, Some(stored), stored.error, None, id);
    } else if l.FinishCancel? && Drives(y, l.id, Withdrawing) {
      DriveRow(y, l, l.id, Cancelled, None, Some(stored), stored.error, None, id);
    }
  }

  lemma ReconcileFailedRowStep(y: System, l: Step, id: Id)
    requires Invariant(y) && l.ReconcileFailed?
    ensures RowStep(y, l, ReconcileNext(y, l), id)
  {
    hide Consistent;
    hide Trail;
    hide RowHolds;
    var stored := Persistable(l.payload);
    TransitionOperationConsistent(y.store, l.id, Failed, None, Some(stored), stored.error);
  }

  lemma ReconcileSucceededRowStep(y: System, l: Step, id: Id)
    requires Invariant(y) && l.ReconcileSucceeded?
    ensures RowStep(y, l, ReconcileNext(y, l), id)
  {
    hide Consistent;
    hide Trail;
    hide RowHolds;
    var stored := Persistable(l.payload);
    TransitionOperationConsistent(y.store, l.id, Succeeded, None, Some(stored), stored.error);
    RowHistory(y.store, l.id);
  }

  lemma ApprovalRowStep(y: System, l: Step, id: Id)
    requires Invariant(y) && IsApprovalStep(l)
    ensures RowStep(y, l, ApprovalNext(y, l), id)
  {
    hide Consistent;
    hide Trail;
    hide RowHolds;
    hide RowStep;
    match l {
      case Issue(d, h, e) => ApprovalStepsConsistent(y.store, d, h, e);
      case Confirm(d, h, n) => ApprovalStepsConsistent(y.store, d, h, n);
      case Withdraw(d) => ApprovalStepsConsistent(y.store, d, "", 0);
    }
    QuietRow(y, l, ApprovalNext(y, l), id);
  }

  lemma LockRowStep(y: System, l: Step, id: Id)
    requires l.ReconcileAsk? || l.ReconcileLeave? || l.ReconcileEnter? || l.ReconcileAbort?
    ensures RowStep(y, l, ReconcileNext(y, l), id)
  {
    hide Trail;
    hide RowStep;
    hide ReconcileNext;
    if l.ReconcileAsk? || l.ReconcileLeave? { QueueStore(y, l); } else { LockStore(y, l); }
    QuietRow(y, l, ReconcileNext(y, l), id);
  }

  lemma QueueStore(y: System, l: Step)
    requires l.ReconcileAsk? || l.ReconcileLeave?
    ensures ReconcileNext(y, l).store == y.store
  {
    hide MayReconcile;
  }

  lemma LockStore(y: System, l: Step)
    requires l.ReconcileEnter? || l.ReconcileAbort?
    ensures ReconcileNext(y, l).store == y.store
  {
    hide SoleOpen;
  }

  lemma SideRowStep(y: System, l: Step, id: Id)
    requires Invariant(y) && !IsDriverStep(l) && !IsApprovalStep(l) && !IsReconcileStep(l)
    ensures RowStep(y, l, SideNext(y, l), id)
  {
    hide Consistent;
    hide Trail;
    hide RowHolds;
    hide RowStep;
    hide SideNext;
    if l.Accept? { AcceptRowStep(y, l, id); }
    else if l.CrashAndRecover? { CrashRowStep(y, l, id); }
    else {
      SideQuiet(y, l, id);
      QuietRow(y, l, SideNext(y, l), id);
    }
  }

  lemma SideQuiet(y: System, l: Step, id: Id)
    requires Invariant(y) && !IsDriverStep(l) && !IsApprovalStep(l) && !IsReconcileStep(l)
    requires !l.Accept? && !l.CrashAndRecover?
    ensures SideNext(y, l).store.operations == y.store.operations
    ensures Trail(SideNext(y, l).store.audit, id) == Trail(y.store.audit, id)
  {
    hide Consistent;
    hide Trail;
    hide RowHolds;
    hide DriverHolds;
    hide HolderHolds;
    hide CreateOperation;
    hide Recovered;
    hide NamedByOperation;
    hide Shutting;
    hide Revoking;
    var s := y.store;
    match l
    case RecordIdentity(d, identity) => RecordAuthConsistent(s, d, identity);
    case BodyCheckpoint(d, c, row) => CreateCheckpointConsistent(s, c, row);
    case BodyFinalize(d, c, after, diff) => FinalizeCheckpointConsistent(s, c, after, diff);
    case ReconcileSeal(d, c, after, diff) => FinalizeCheckpointConsistent(s, c, after, diff);
    case MarkRestored(c) => MarkRestoredConsistent(s, c);
    case OpenSession(x, project, auth) => CreateSessionConsistent(s, x, project, auth);
    case CloseSession(x) => SessionQuiet(s, x, id);
    case RevokeSession(x) => SessionQuiet(s, x, id);
    case Abandon(_) =>
  }

  lemma SessionQuiet(s: Store, x: Id, id: Id)
    requires Consistent(s)
    ensures Settle(s, Shutting(s, x)).operations == s.operations == Settle(s, Revoking(s, x)).operations
    ensures Trail(Settle(s, Shutting(s, x)).audit, id) == Trail(s.audit, id) == Trail(Settle(s, Revoking(s, x)).audit, id)
  {
    hide Consistent;
    hide Trail;
    TransitionSessionConsistent(s, x, Closing, Some("bridge_shutdown"));
    TransitionSessionConsistent(s, x, Closed, Some("bridge_shutdown"));
    TransitionSessionConsistent(s, x, Blocked, Some("project_removed"));
  }

  lemma AcceptRowStep(y: System, l: Step, id: Id)
    requires Invariant(y) && l.Accept?
    ensures RowStep(y, l, SideNext(y, l), id)
  {
    hide Consistent;
    hide Trail;
    hide RowHolds;
    if CreateOperation(y.store, l.id, l.project, l.session, l.key, l.hash, l.mutation).Inserted? {
      InsertOperationConsistent(y.store, l.id, l.project, l.session, l.key, l.hash, l.mutation);
    }
  }

  lemma CrashRowStep(y: System, l: Step, id: Id)
    requires Invariant(y) && l.CrashAndRecover?
    ensures RowStep(y, l, SideNext(y, l), id)
  {
    hide Invariant;
    hide Recovered;
    hide RowStep;
    hide CreateOperation;
    hide NamedByOperation;
    QuietRow(y, l, y, id);
    if Recovered(y.store, l.outcome) { RecoveredRowStep(y, l, id); }
  }

  lemma RecoveredRowStep(y: System, l: Step, id: Id)
    requires Invariant(y) && l.CrashAndRecover? && Recovered(y.store, l.outcome)
    ensures RowStep(y, l, System(l.outcome, map[], multiset{}, map[]), id)
  {
    hide Consistent;
    hide Trail;
    hide RowHolds;
    hide DriverHolds;
    hide HolderHolds;
    hide HistoryHolds;
  }

  lemma EveryRowStep(y: System, l: Step, id: Id)
    requires Invariant(y)
    ensures RowStep(y, l, Next(y, l), id)
  {
    hide Invariant;
    hide RowStep;
    hide DriverNext;
    hide ApprovalNext;
    hide ReconcileNext;
    hide SideNext;
    if IsDriverStep(l) { DriverRowStep(y, l, id); }
    else if IsApprovalStep(l) { ApprovalRowStep(y, l, id); }
    else if l.ReconcileFailed? { ReconcileFailedRowStep(y, l, id); }
    else if l.ReconcileSucceeded? { ReconcileSucceededRowStep(y, l, id); }
    else if IsReconcileStep(l) { LockRowStep(y, l, id); }
    else { SideRowStep(y, l, id); }
  }

  // ---------------------------------------------------------------- execution at most once

  /** How often the body of an operation was started. */
  ghost function BodyStarts(steps: seq<Step>, id: Id): nat {
    if steps == [] then 0
    else
      var y, l := Run(INITIAL, steps[..|steps| - 1]), steps[|steps| - 1];
      BodyStarts(steps[..|steps| - 1], id) + if l == Begin(id) && Drives(y, id, Launched) then 1 else 0
  }

  function CountOf(path: seq<OpState>, st: OpState): nat {
    if path == [] then 0
    else CountOf(path[..|path| - 1], st) + if path[|path| - 1] == st then 1 else 0
  }

  lemma CountAppend(path: seq<OpState>, more: seq<OpState>, st: OpState)
    requires |more| <= 1
    ensures CountOf(path + more, st) == CountOf(path, st) + if more == [st] then 1 else 0
  {
    if more == [] { assert path + more == path; }
    else { assert (path + more)[..|path|] == path; }
  }

  lemma {:induction false} DistinctCount(path: seq<OpState>, st: OpState)
    requires forall i, j :: 0 <= i < j < |path| ==> path[i] != path[j]
    ensures CountOf(path, st) == if st in path then 1 else 0
  {
    if path != [] {
      var prefix, last := path[..|path| - 1], path[|path| - 1];
      DistinctCount(prefix, st);
      assert path == prefix + [last];
      assert st in prefix ==> last != st;
    }
  }

  lemma {:induction false} StartsAreLogged(steps: seq<Step>, id: Id)
    ensures BodyStarts(steps, id) == CountOf(Trail(Run(INITIAL, steps).store.audit, id), Running)
  {
    if steps != [] {
      var prefix, l := steps[..|steps| - 1], steps[|steps| - 1];
      var y := Run(INITIAL, prefix);
      StartsAreLogged(prefix, id);
      Reachable(prefix);
      EveryRowStep(y, l, id);
      CountAppend(Trail(y.store.audit, id), EnteredState(y.store.operations, Next(y, l).store.operations, id), Running);
    }
  }

  /** Across any interleaving of retries, confirmations, cancellations, reconciliations and crashes,
      a (project, session, key) has one row, and the body of a row starts at most once. */
  lemma AtMostOnce(steps: seq<Step>, a: Id, b: Id)
    ensures var rows := Run(INITIAL, steps).store.operations;
            ShareKey(rows, a, b) ==> a == b
    ensures BodyStarts(steps, a) <= 1
    ensures BodyStarts(steps, a) == 1 <==> Running in Trail(Run(INITIAL, steps).store.audit, a)
  {
    Reachable(steps);
    var s := Run(INITIAL, steps).store;
    StartsAreLogged(steps, a);
    EntersEachStateOnce(s, a);
    DistinctCount(Trail(s.audit, a), Running);
  }

  // ---------------------------------------------------------------- one mutation per project

  /** In every reachable state a project has at most one mutation in the six active states. */
  lemma OneMutationPerProject(steps: seq<Step>, a: Id, b: Id)
    requires ShareSlot(Run(INITIAL, steps).store.operations, a, b)
    ensures a == b
  {
    Reachable(steps);
    hide Run;
  }

  /** A step puts an operation into the active states only by creating it; an unknown mutation stays
      there until it is reconciled. */
  ghost predicate SlotKept(y: System, l: Step, z: System, id: Id) {
    && (id in z.store.operations && HoldsSlot(z.store.operations[id]) ==>
          if id in y.store.operations then HoldsSlot(y.store.operations[id]) else l.Accept? && l.id == id)
    && (id in y.store.operations && HoldsSlot(y.store.operations[id])
        && y.store.operations[id].state == Unknown
        && !((l.ReconcileFailed? || l.ReconcileSucceeded?) && l.id == id) ==>
          id in z.store.operations && HoldsSlot(z.store.operations[id]))
  }

  lemma SlotKeptByEveryStep(steps: seq<Step>, l: Step, id: Id)
    ensures SlotKept(Run(INITIAL, steps), l, Run(INITIAL, steps + [l]), id)
  {
    Reachable(steps);
    RunAppend(steps, [l]);
    assert steps + [l][..0] == steps;
    hide Run;
    hide Next;
    hide Invariant;
    hide Trail;
    EveryRowStep(Run(INITIAL, steps), l, id);
  }

  // ---------------------------------------------------------------- replay stability

  /** The payload a retry with the same key is answered with; None while the operation is active. */
  function StoredPayload(o: Operation): Option<Payload> {
    if o.result.Some? then o.result
    else if o.state == Unknown then Some(UNKNOWN_PAYLOAD)
    else if (o.state == Failed || o.state == Cancelled) && o.error.Some? then
      Some(Payload(if o.state == Failed then "failed" else "cancelled", "", o.error))
    else None
  }

  const UNKNOWN_PAYLOAD :=
    Payload("unknown", "", Some(StoreModel.Failure.Failure("UNKNOWN_SIDE_EFFECT", None, "")))

  /** Once an operation has succeeded, failed or been cancelled, its row never changes again. */
  lemma {:induction false} TerminalRowsFrozen(steps: seq<Step>, more: seq<Step>, id: Id)
    requires id in Run(INITIAL, steps).store.operations
    requires Terminal(Run(INITIAL, steps).store.operations[id].state)
    ensures id in Run(INITIAL, steps + more).store.operations
    ensures Run(INITIAL, steps + more).store.operations[id] == Run(INITIAL, steps).store.operations[id]
  {
    hide *;
    if more == [] {
      assert steps + more == steps;
    } else {
      var shorter, l := more[..|more| - 1], more[|more| - 1];
      TerminalRowsFrozen(steps, shorter, id);
      RunAppend(steps, more);
      Reachable(steps + shorter);
      TerminalRowFrozen(Run(INITIAL, steps + shorter), l, id);
    }
  }

  lemma TerminalRowFrozen(y: System, l: Step, id: Id)
    requires Invariant(y) && id in y.store.operations && Terminal(y.store.operations[id].state)
    ensures id in Next(y, l).store.operations
    ensures Next(y, l).store.operations[id] == y.store.operations[id]
  {
    EveryRowStep(y, l, id);
    hide Next;
    hide Invariant;
    hide Trail;
  }

  lemma RunAppend(steps: seq<Step>, more: seq<Step>)
    requires more != []
    ensures Run(INITIAL, steps + more)
         == Next(Run(INITIAL, steps + more[..|more| - 1]), more[|more| - 1])
  {
    hide Next;
    assert (steps + more)[..|steps + more| - 1] == steps + more[..|more| - 1];
  }

  /** The payload stored for a settled operation exists, never changes, and carries no plaintext approval
      token. */
  lemma ReplayIsStable(steps: seq<Step>, more: seq<Step>, id: Id)
    requires id in Run(INITIAL, steps).store.operations
    requires Terminal(Run(INITIAL, steps).store.operations[id].state)
    ensures id in Run(INITIAL, steps + more).store.operations
    ensures var answer := StoredPayload(Run(INITIAL, steps).store.operations[id]);
            && answer.Some?
            && StoredPayload(Run(INITIAL, steps + more).store.operations[id]) == answer
            && (answer.value.error.Some? ==> answer.value.error.value.approvalToken.None?)
  {
    TerminalRowsFrozen(steps, more, id);
    Reachable(steps);
    assert RowHolds(Run(INITIAL, steps).store, id);
  }

  /** What a body ended with is what every later retry is answered with, in every continuation of the run. */
  lemma FinishedAnswer(steps: seq<Step>, id: Id, verdict: Verdict, payload: Payload, more: seq<Step>)
    requires Drives(Run(INITIAL, steps), id, InBody) && verdict != Uncertain
    ensures var s := Run(INITIAL, steps + [Finish(id, verdict, payload)] + more).store;
            && id in s.operations && StoredPayload(s.operations[id]).Some?
            && PayloadKept(StoredPayload(s.operations[id]).value, payload)
  {
    hide Consistent;
    hide Trail;
    hide RowHolds;
    var y, done := Run(INITIAL, steps), steps + [Finish(id, verdict, payload)];
    Reachable(steps);
    assert DriverHolds(y.store, id, InBody);
    assert done[..|done| - 1] == steps && Run(INITIAL, done) == Next(y, Finish(id, verdict, payload));
    ReplayIsStable(done, more, id);
  }

  // ---------------------------------------------------------------- identities

  /** What one step may do to recorded identities: none is ever replaced, an operation gets one only
      while it is received, and a session only when it is opened. */
  ghost predicate IdentityStep(y: System, z: System, id: Id) {
    && (IdentityOf(y.store.audit, id).Some? || (id in y.store.operations && y.store.operations[id].state != Received) ==>
          IdentityOf(z.store.audit, id) == IdentityOf(y.store.audit, id))
    && (id in y.store.sessions ==>
          id in z.store.sessions
          && SessionIdentityOf(z.store.audit, id) == SessionIdentityOf(y.store.audit, id))
  }

  /** A log that grew by one event. */
  lemma IdentityAfter(y: System, z: System, e: Event, id: Id)
    requires z.store.audit == y.store.audit + [e] && y.store.sessions.Keys <= z.store.sessions.Keys
    requires e.SessionAuthEvent? ==> e.session !in y.store.sessions
    requires e.OperationAuthEvent? ==> e.operation in y.store.operations && y.store.operations[e.operation].state == Received
    ensures IdentityStep(y, z, id)
  {
    IdentityAppend(y.store.audit, e, id);
    SessionIdentityAppend(y.store.audit, e, id);
  }

  /** Sessions and checkpoints are as before; at most one event was appended, and it records no identity. */
  ghost predicate PlainAppend(s: Store, t: Store) {
    && t.sessions == s.sessions && t.checkpoints == s.checkpoints
    && (t.audit == s.audit
        || (|t.audit| == |s.audit| + 1 && t.audit == s.audit + [t.audit[|s.audit|]]
            && !t.audit[|s.audit|].OperationAuthEvent? && !t.audit[|s.audit|].SessionAuthEvent?))
  }

  lemma TransitionPlain(s: Store, id: Id, to: OpState, expected: Option<OpState>,
                        result: Option<Payload>, error: Option<StoreModel.Failure>)
    ensures PlainAppend(s, Settle(s, TransitionOperation(s, id, to, expected, result, error)))
  {
  }

  lemma DriverPlain(y: System, l: Step)
    requires IsDriverStep(l)
    ensures PlainAppend(y.store, DriverNext(y, l).store)
  {
    hide TransitionOperation;
    hide PlainAppend;
    hide Settle;
    Unchanged(y.store);
    forall id, to, expected, result, error
      ensures PlainAppend(y.store, Settle(y.store, TransitionOperation(y.store, id, to, expected, result, error)))
    {
      TransitionPlain(y.store, id, to, expected, result, error);
    }
  }

  lemma Unchanged(s: Store)
    ensures PlainAppend(s, s)
  {
  }

  lemma ApprovalPlain(y: System, l: Step)
    requires IsApprovalStep(l)
    ensures PlainAppend(y.store, ApprovalNext(y, l).store)
  {
    hide Trail;
  }

  lemma FinishPlain(s: Store)
    ensures forall id, to, payload :: PlainAppend(s, Settle(s, FinishOperation(s, id, to, payload)))
  {
    hide PlainAppend;
    hide TransitionOperation;
    hide Settle;
    forall id, to, payload ensures PlainAppend(s, Settle(s, FinishOperation(s, id, to, payload))) {
      TransitionPlain(s, id, to, None, Some(Persistable(payload)), Persistable(payload).error);
    }
  }

  lemma ReconcilePlain(y: System, l: Step)
    requires IsReconcileStep(l)
    ensures PlainAppend(y.store, ReconcileNext(y, l).store)
  {
    hide Trail;
    hide Sealed;
    hide SoleOpen;
    hide MayReconcile;
    hide FinishOperation;
    hide PlainAppend;
    hide Settle;
    Unchanged(y.store);
    FinishPlain(y.store);
  }

  lemma EveryPlainStep(y: System, l: Step)
    requires IsDriverStep(l) || IsApprovalStep(l) || IsReconcileStep(l)
    ensures PlainAppend(y.store, Next(y, l).store)
  {
    hide PlainAppend;
    hide DriverNext;
    hide ApprovalNext;
    hide ReconcileNext;
    hide SideNext;
    if IsDriverStep(l) { DriverPlain(y, l); }
    else if IsApprovalStep(l) { ApprovalPlain(y, l); }
    else { ReconcilePlain(y, l); }
  }

  lemma PlainIdentity(y: System, z: System, id: Id)
    requires PlainAppend(y.store, z.store)
    ensures IdentityStep(y, z, id)
  {
    hide IdentityOf;
    hide SessionIdentityOf;
    if z.store.audit == y.store.audit { SameLog(y, z, id); }
    else { IdentityAfter(y, z, z.store.audit[|y.store.audit|], id); }
  }

  lemma EveryIdentityStep(y: System, l: Step, id: Id)
    requires Invariant(y)
    ensures IdentityStep(y, Next(y, l), id)
  {
    hide Invariant;
    hide IdentityStep;
    hide PlainAppend;
    hide DriverNext;
    hide ApprovalNext;
    hide ReconcileNext;
    hide SideNext;
    if IsDriverStep(l) || IsApprovalStep(l) || IsReconcileStep(l) {
      EveryPlainStep(y, l);
      PlainIdentity(y, Next(y, l), id);
    } else {
      SideIdentityStep(y, l, id);
    }
  }

  lemma SameLog(y: System, z: System, id: Id)
    requires z.store.audit == y.store.audit && y.store.sessions.Keys <= z.store.sessions.Keys
    ensures IdentityStep(y, z, id)
  {
  }

  lemma SideIdentityStep(y: System, l: Step, id: Id)
    requires Invariant(y)
    ensures IdentityStep(y, SideNext(y, l), id)
  {
    hide Trail;
    hide Consistent;
    hide RowHolds;
    hide IdentityOf;
    hide SessionIdentityOf;
    var z := SideNext(y, l);
    if z.store.audit == y.store.audit && z.store.sessions.Keys == y.store.sessions.Keys {
      SameLog(y, z, id);
    } else if l.OpenSession? {
      OpenIdentityStep(y, l, id);
    } else if !l.CrashAndRecover? {
      IdentityAfter(y, z, z.store.audit[|y.store.audit|], id);
    }
  }

  /** A new session gets at most the identity that comes with it. */
  lemma OpenIdentityStep(y: System, l: Step, id: Id)
    requires l.OpenSession?
    ensures IdentityStep(y, SideNext(y, l), id)
  {
    hide IdentityOf;
    hide SessionIdentityOf;
    hide Recovered;
    hide CreateOperation;
    hide NamedByOperation;
    var z := SideNext(y, l);
    if l.newcomer !in y.store.sessions && !NamedByOperation(y.store, l.newcomer) {
      var log := y.store.audit;
      var first, second := SessionEvent(l.newcomer, None, Created), SessionEvent(l.newcomer, Some(Created), Active);
      IdentityAppend(log, first, id);
      SessionIdentityAppend(log, first, id);
      IdentityAppend(log + [first], second, id);
      SessionIdentityAppend(log + [first], second, id);
      if l.auth.Some? {
        IdentityAppend(log + [first] + [second], SessionAuthEvent(l.newcomer, l.auth.value), id);
        SessionIdentityAppend(log + [first] + [second], SessionAuthEvent(l.newcomer, l.auth.value), id);
      } else {
        assert z.store.audit == log + [first] + [second];
      }
    }
  }

  /** The identity that guards the replays of an operation never changes once the operation is
      validated, and the identity of a session never changes at all. */
  lemma {:induction false} IdentitiesFixed(steps: seq<Step>, more: seq<Step>, id: Id)
    ensures var s, t := Run(INITIAL, steps).store, Run(INITIAL, steps + more).store;
            && (IdentityOf(s.audit, id).Some? || (id in s.operations && s.operations[id].state != Received) ==>
                  IdentityOf(t.audit, id) == IdentityOf(s.audit, id))
            && (id in s.operations && s.operations[id].state != Received ==>
                  id in t.operations && t.operations[id].state != Received)
            && (id in s.sessions ==>
                  id in t.sessions && SessionIdentityOf(t.audit, id) == SessionIdentityOf(s.audit, id))
  {
    hide *;
    if more == [] {
      assert steps + more == steps;
    } else {
      var shorter, l := more[..|more| - 1], more[|more| - 1];
      IdentitiesFixed(steps, shorter, id);
      RunAppend(steps, more);
      Reachable(steps + shorter);
      EveryIdentityStep(Run(INITIAL, steps + shorter), l, id);
      var y := Run(INITIAL, steps + shorter);
      if id in y.store.operations && y.store.operations[id].state != Received { StaysValidated(y, l, id); }
      IdentityStepMeans(Run(INITIAL, steps + shorter), Run(INITIAL, steps + more), id);
    }
  }

  lemma IdentityStepMeans(y: System, z: System, id: Id)
    requires IdentityStep(y, z, id)
    ensures IdentityOf(y.store.audit, id).Some? || (id in y.store.operations && y.store.operations[id].state != Received) ==>
              IdentityOf(z.store.audit, id) == IdentityOf(y.store.audit, id)
    ensures id in y.store.sessions ==>
              id in z.store.sessions
              && SessionIdentityOf(z.store.audit, id) == SessionIdentityOf(y.store.audit, id)
  {
  }

  /** No operation ever returns to received. */
  lemma StaysValidated(y: System, l: Step, id: Id)
    requires Invariant(y) && id in y.store.operations && y.store.operations[id].state != Received
    ensures id in Next(y, l).store.operations && Next(y, l).store.operations[id].state != Received
  {
    hide Next;
    hide Invariant;
    hide Trail;
    EveryRowStep(y, l, id);
    KeepsInvariant(y, l);
    Reenters(y, Next(y, l), l, id);
  }

  lemma Reenters(y: System, z: System, l: Step, id: Id)
    requires Invariant(y) && Invariant(z) && RowStep(y, l, z, id)
    requires id in y.store.operations && y.store.operations[id].state != Received
    ensures z.store.operations[id].state != Received
  {
    EntersEachStateOnce(z.store, id);
    TrailIsPath(z.store.audit, id);
    TrailIsPath(y.store.audit, id);
  }

  // ---------------------------------------------------------------- approvals

  /** Approvals and operations in every reachable state. */
  lemma ApprovalCoupling(steps: seq<Step>, id: Id)
    requires id in Run(INITIAL, steps).store.approvals
    ensures var s := Run(INITIAL, steps).store;
            && id in s.operations
            && var a, st := s.approvals[id], s.operations[id].state;
            && (a.status == Pending ==> st == Validated || st == AwaitingApproval)
            && (st == Dispatched || st == Running || st == Succeeded || st == Unknown ==> a.status == Consumed)
            && (a.status == Consumed ==> a.consumedAt.Some? && a.consumedAt.value < a.expiresAt)
            && a.status != Expired
  {
    Reachable(steps);
    assert RowHolds(Run(INITIAL, steps).store, id);
  }

  /** A cancelled operation never ran. */
  lemma CancelledNeverRan(steps: seq<Step>, id: Id)
    requires id in Run(INITIAL, steps).store.operations
    requires Run(INITIAL, steps).store.operations[id].state == Cancelled
    ensures Running !in Trail(Run(INITIAL, steps).store.audit, id) && BodyStarts(steps, id) == 0
  {
    Reachable(steps);
    assert RowHolds(Run(INITIAL, steps).store, id);
    AtMostOnce(steps, id, id);
  }

  /** One step against one approval: a settled approval is final, and the only way to consume one is
      to present the matching token before expiry. */
  ghost predicate ApprovalStep(y: System, l: Step, z: System, id: Id) {
    && (id in y.store.approvals ==>
          id in z.store.approvals
          && (y.store.approvals[id].status != Pending ==> z.store.approvals[id] == y.store.approvals[id]))
    && (id in z.store.approvals && z.store.approvals[id].status == Consumed
        && !(id in y.store.approvals && y.store.approvals[id].status == Consumed) ==>
          l.Confirm? && l.id == id && l.tokenHash == z.store.approvals[id].tokenHash
          && l.now < z.store.approvals[id].expiresAt)
  }

  lemma EveryApprovalStep(y: System, l: Step, id: Id)
    ensures ApprovalStep(y, l, Next(y, l), id)
  {
    hide ApprovalStep;
    hide DriverNext;
    hide ApprovalNext;
    hide ReconcileNext;
    hide SideNext;
    if IsDriverStep(l) || IsReconcileStep(l) { OtherApprovals(y, l, id); }
    else if IsApprovalStep(l) { ApprovalApprovals(y, l, id); }
    else { SideApprovals(y, l, id); }
  }

  lemma OtherApprovals(y: System, l: Step, id: Id)
    requires IsDriverStep(l) || IsReconcileStep(l)
    ensures ApprovalStep(y, l, Next(y, l), id)
  {
    hide Trail;
    hide Sealed;
    hide SoleOpen;
    hide DriverNext;
    hide ReconcileNext;
    if IsDriverStep(l) { DriverApprovals(y, l); } else { ReconcileApprovals(y, l); }
  }

  lemma DriverApprovals(y: System, l: Step)
    requires IsDriverStep(l)
    ensures DriverNext(y, l).store.approvals == y.store.approvals
  {
  }

  lemma ReconcileApprovals(y: System, l: Step)
    requires IsReconcileStep(l)
    ensures ReconcileNext(y, l).store.approvals == y.store.approvals
  {
    hide Trail;
    hide Sealed;
    hide SoleOpen;
  }

  lemma ApprovalApprovals(y: System, l: Step, id: Id)
    requires IsApprovalStep(l)
    ensures ApprovalStep(y, l, ApprovalNext(y, l), id)
  {
    hide Trail;
  }

  lemma SideApprovals(y: System, l: Step, id: Id)
    ensures ApprovalStep(y, l, SideNext(y, l), id)
  {
    hide Recovered;
    hide CreateOperation;
    if l.CrashAndRecover? && Recovered(y.store, l.outcome) {
      RecoveredApprovals(y.store, l.outcome, id);
    }
  }

  lemma RecoveredApprovals(s: Store, t: Store, id: Id)
    requires Recovered(s, t)
    ensures id in s.approvals <==> id in t.approvals
    ensures id in s.approvals ==> t.approvals[id] == RecoveredApproval(s.approvals[id])
  {
    hide HistoryHolds;
    hide OneEventEach;
  }

  /** How often an approval was consumed. */
  ghost function Consumptions(steps: seq<Step>, id: Id): nat {
    if steps == [] then 0
    else
      var y, z := Run(INITIAL, steps[..|steps| - 1]), Run(INITIAL, steps);
      Consumptions(steps[..|steps| - 1], id)
      + if IsConsumed(z, id) && !IsConsumed(y, id) then 1 else 0
  }

  predicate IsConsumed(y: System, id: Id) {
    id in y.store.approvals && y.store.approvals[id].status == Consumed
  }

  /** A consumed approval was consumed once, by a confirmation that presented the token with the
      stored hash before it expired. */
  lemma {:induction false} ConsumedOnceByItsToken(steps: seq<Step>, id: Id)
    ensures Consumptions(steps, id) == if IsConsumed(Run(INITIAL, steps), id) then 1 else 0
    ensures IsConsumed(Run(INITIAL, steps), id) ==>
              var a := Run(INITIAL, steps).store.approvals[id];
              exists k :: 0 <= k < |steps| && Presents(steps[k], id, a)
  {
    if steps != [] {
      var prefix, l := steps[..|steps| - 1], steps[|steps| - 1];
      var y := Run(INITIAL, prefix);
      ConsumedOnceByItsToken(prefix, id);
      EveryApprovalStep(y, l, id);
      if IsConsumed(Next(y, l), id) {
        var a := Next(y, l).store.approvals[id];
        if IsConsumed(y, id) {
          var k :| 0 <= k < |prefix| && Presents(prefix[k], id, a);
          assert Presents(steps[k], id, a);
        } else {
          assert Presents(steps[|steps| - 1], id, a);
        }
      }
    }
  }

  predicate Presents(l: Step, id: Id, a: Approval) {
    l.Confirm? && l.id == id && l.tokenHash == a.tokenHash && l.now < a.expiresAt
  }
}
