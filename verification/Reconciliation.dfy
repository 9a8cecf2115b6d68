/** `operation_reconcile` of `mcp_server.py`: which unknown operations can still be reconciled, and how. */
module Reconciliation {
  import opened Basics
  import opened StoreModel
  import opened AuditHistory
  import opened Lifecycle
  import opened LifecycleRuns
  import Access = AccessServices

  /** The operation's session is open, or ended with the service: then its own session or a successor may
      reconcile it. A session that was revoked has no successor, and no session none either. */
  predicate Reconcilable(s: Store, id: Id) {
    && id in s.operations && s.operations[id].session.Some? && s.operations[id].session.value in s.sessions
    && var x := s.sessions[s.operations[id].session.value];
    && x.project == s.operations[id].project && (Open(x) || EndedWithService(x))
  }

  /** Success is open: the operation is being reconciled as succeeded; or it has one mutation checkpoint, not
      finalized, and somebody waits or may come to reconcile it. */
  ghost predicate CanSucceed(y: System, id: Id) {
    || Holds(y, id)
    || (SoleOpen(y.store.checkpoints, id) && (id in y.waiting || Reconcilable(y.store, id)))
  }

  /** Unknown or failed, and not being reconciled as succeeded. */
  predicate Settling(y: System, id: Id) {
    && id in y.store.operations
    && (y.store.operations[id].state == Unknown || y.store.operations[id].state == Failed)
    && !Holds(y, id)
  }

  /** Unknown or failed, and success is not open. */
  ghost predicate Stuck(y: System, id: Id) {
    Settling(y, id) && !CanSucceed(y, id)
  }

  /** Unknown, and neither success nor failure is open. */
  ghost predicate Lost(y: System, id: Id) {
    && id in y.store.operations && y.store.operations[id].state == Unknown
    && !CanSucceed(y, id) && !Reconcilable(y.store, id)
  }

  // ---------------------------------------------------------------- sessions

  /** A session that is neither open nor ended with the service stays as it is, and a missing one missing. */
  ghost predicate SessionKept(s: Store, t: Store, x: Id) {
    && (x in t.sessions ==> x in s.sessions)
    && (x in s.sessions ==>
          x in t.sessions && t.sessions[x].project == s.sessions[x].project
          && (Open(s.sessions[x]) || EndedWithService(s.sessions[x]) || t.sessions[x] == s.sessions[x]))
  }

  lemma SessionStep(y: System, l: Step, x: Id)
    requires NamedByOperation(y.store, x)
    ensures SessionKept(y.store, Next(y, l).store, x)
  {
    hide DriverNext;
    hide ApprovalNext;
    hide ReconcileNext;
    hide SideNext;
    if IsDriverStep(l) || IsApprovalStep(l) || IsReconcileStep(l) {
      EveryPlainStep(y, l);
    } else {
      SideSession(y, l, x);
    }
  }

  lemma SideSession(y: System, l: Step, x: Id)
    requires NamedByOperation(y.store, x)
    ensures SessionKept(y.store, SideNext(y, l).store, x)
  {
    hide NamedByOperation;
    hide HistoryHolds;
    hide OneEventEach;
    hide CreateOperation;
  }

  /** Nobody comes to reconcile an operation whose session was revoked. */
  lemma StaysUnreconcilable(y: System, l: Step, id: Id)
    requires Invariant(y) && id in y.store.operations && !Reconcilable(y.store, id)
    ensures !Reconcilable(Next(y, l).store, id)
  {
    hide Next;
    hide Invariant;
    hide Trail;
    EveryRowStep(y, l, id);
    var session := y.store.operations[id].session;
    if session.Some? {
      assert NamedByOperation(y.store, session.value);
      SessionStep(y, l, session.value);
    }
  }

  lemma ReconcilersServe(s: Store, id: Id, caller: Id)
    requires MayReconcile(s, id, caller)
    ensures Reconcilable(s, id)
  {
    hide SessionIdentityOf;
  }

  // ---------------------------------------------------------------- what stays closed

  lemma {:induction false} StuckForever(y: System, more: seq<Step>, id: Id)
    requires Invariant(y) && Stuck(y, id)
    ensures Invariant(Run(y, more)) && Stuck(Run(y, more), id)
  {
    hide Invariant;
    hide Stuck;
    hide Next;
    if more != [] {
      var shorter, l := more[..|more| - 1], more[|more| - 1];
      StuckForever(y, shorter, id);
      KeepsInvariant(Run(y, shorter), l);
      StuckStep(Run(y, shorter), l, id);
    }
  }

  lemma StuckStep(y: System, l: Step, id: Id)
    requires Invariant(y) && Stuck(y, id)
    ensures Stuck(Next(y, l), id)
  {
    hide Next;
    hide Invariant;
    hide SoleOpen;
    hide Holds;
    hide Trail;
    hide Reconcilable;
    EveryRowStep(y, l, id);
    NoneOpened(y, l, id);
    NotEntered(y, l, id);
    if !Reconcilable(y.store, id) {
      StaysUnreconcilable(y, l, id);
      if id !in y.waiting { NoneWaits(y, l, id); }
    }
    if l.ReconcileFailed? && l.id == id { FailsOnly(y, l, id); }
  }

  lemma FailsOnly(y: System, l: Step, id: Id)
    requires l.ReconcileFailed? && l.id == id && id in y.store.operations
    ensures id in Next(y, l).store.operations
    ensures Next(y, l).store.operations[id].state == y.store.operations[id].state
            || (Next(y, l).store.operations[id].state == Failed && Reconcilable(y.store, id))
  {
    hide Trail;
    hide SideNext;
    hide MayReconcile;
    assert Next(y, l) == ReconcileNext(y, l);
    if MayReconcile(y.store, id, l.caller) { ReconcilersServe(y.store, id, l.caller); }
  }

  /** Only who may reconcile an operation comes to wait for its lock. */
  lemma NoneWaits(y: System, l: Step, id: Id)
    requires id !in y.waiting && !Reconcilable(y.store, id)
    ensures id !in Next(y, l).waiting
  {
    hide DriverNext;
    hide ApprovalNext;
    hide SideNext;
    hide MayReconcile;
    hide Reconcilable;
    hide SoleOpen;
    hide Sealed;
    WaitingElsewhere(y, l);
    if l.ReconcileAsk? && MayReconcile(y.store, l.id, l.caller) { ReconcilersServe(y.store, l.id, l.caller); }
  }

  /** Queue and locks lose at most what a crash takes from them. */
  predicate FewerLocks(y: System, z: System) {
    && z.waiting <= y.waiting
    && forall p :: p in z.holders ==> p in y.holders && z.holders[p] == y.holders[p]
  }

  lemma WaitingElsewhere(y: System, l: Step)
    ensures !IsReconcileStep(l) ==> FewerLocks(y, Next(y, l))
  {
    hide DriverNext;
    hide ApprovalNext;
    hide ReconcileNext;
    hide SideNext;
    hide FewerLocks;
    if IsDriverStep(l) { DriverLocks(y, l); }
    else if IsApprovalStep(l) { ApprovalLocks(y, l); }
    else if !IsReconcileStep(l) { SideLocks(y, l); }
  }

  lemma DriverLocks(y: System, l: Step)
    requires IsDriverStep(l)
    ensures FewerLocks(y, DriverNext(y, l))
  {
  }

  lemma ApprovalLocks(y: System, l: Step)
    requires IsApprovalStep(l)
    ensures FewerLocks(y, ApprovalNext(y, l))
  {
    hide Trail;
  }

  lemma SideLocks(y: System, l: Step)
    ensures FewerLocks(y, SideNext(y, l))
  {
    hide CreateOperation;
    hide Recovered;
    hide NamedByOperation;
  }

  /** The mutation checkpoints of the operation, finalized or not, are the same. */
  ghost predicate SameMutationRows(old': map<Id, Checkpoint>, new': map<Id, Checkpoint>, id: Id) {
    && (forall c :: c in new' && IsMutationOf(new'[c], id) ==> c in old' && IsMutationOf(old'[c], id))
    && (forall c :: c in old' && IsMutationOf(old'[c], id) ==>
          c in new' && IsMutationOf(new'[c], id) && (old'[c].after.Some? <==> new'[c].after.Some?))
  }

  lemma SameRowsSameSole(old': map<Id, Checkpoint>, new': map<Id, Checkpoint>, id: Id)
    requires SameMutationRows(old', new', id)
    ensures SoleOpen(new', id) ==> SoleOpen(old', id)
  {
    if c :| c in new' && SoleOpenRow(new', c, id) { assert SoleOpenRow(old', c, id); }
  }

  /** Only the body of the operation, while it runs, and its reconciliation change its checkpoints. */
  lemma NoneOpened(y: System, l: Step, id: Id)
    requires Invariant(y) && Settling(y, id)
    ensures SoleOpen(Next(y, l).store.checkpoints, id) ==> SoleOpen(y.store.checkpoints, id)
  {
    hide SoleOpen;
    hide Sealed;
    hide Trail;
    hide Consistent;
    hide RowHolds;
    hide DriverNext;
    hide ApprovalNext;
    hide ReconcileNext;
    hide SideNext;
    hide SameMutationRows;
    if IsDriverStep(l) || IsApprovalStep(l) || IsReconcileStep(l) {
      EveryPlainStep(y, l);
    } else {
      SideRows(y, l, id);
      SameRowsSameSole(y.store.checkpoints, SideNext(y, l).store.checkpoints, id);
    }
  }

  lemma SideRows(y: System, l: Step, id: Id)
    requires Invariant(y) && Settling(y, id)
    ensures SameMutationRows(y.store.checkpoints, SideNext(y, l).store.checkpoints, id)
  {
    hide Invariant;
    hide SideNext;
    hide SameMutationRows;
    if l.BodyCheckpoint? || l.BodyFinalize? || l.ReconcileSeal? || l.MarkRestored? {
      CheckpointRows(y, l, id);
    } else {
      OtherSteps(y, l);
      NoRows(y.store.checkpoints, id);
    }
  }

  lemma CheckpointRows(y: System, l: Step, id: Id)
    requires Invariant(y) && Settling(y, id)
    requires l.BodyCheckpoint? || l.BodyFinalize? || l.ReconcileSeal? || l.MarkRestored?
    ensures SameMutationRows(y.store.checkpoints, SideNext(y, l).store.checkpoints, id)
  {
    hide SoleOpen;
    hide Sealed;
    hide Trail;
    hide Consistent;
    hide RowHolds;
    hide HolderHolds;
    hide WaiterHolds;
    hide SameMutationRows;
    hide CreateCheckpoint;
    hide FinalizeCheckpoint;
    hide MarkCheckpointRestored;
    NoRows(y.store.checkpoints, id);
    match l
    case BodyCheckpoint(d, c, row) => if d != id && row.operation == Some(d) { AddedRow(y.store, c, row, id); }
    case BodyFinalize(d, c, after, diff) =>
      if c in y.store.checkpoints && y.store.checkpoints[c].operation != Some(id) { OtherRow(y.store, c, after, diff, id); }
    case ReconcileSeal(d, c, after, diff) =>
      if c in y.store.checkpoints && y.store.checkpoints[c].operation != Some(id) { OtherRow(y.store, c, after, diff, id); }
    case MarkRestored(c) => RestoredRow(y.store, c, id);
  }

  /** No other step writes a checkpoint. */
  lemma OtherSteps(y: System, l: Step)
    requires !l.BodyCheckpoint? && !l.BodyFinalize? && !l.ReconcileSeal? && !l.MarkRestored?
    ensures SideNext(y, l).store.checkpoints == y.store.checkpoints
  {
    hide HistoryHolds;
    hide OneEventEach;
    hide CreateOperation;
    hide NamedByOperation;
    hide Shutting;
    hide Revoking;
    hide CreateSession;
    hide RecordOperationAuth;
    match l
    case RecordIdentity(d, identity) => QuietRows(y.store, "", "", None, d, identity);
    case OpenSession(x, project, auth) => QuietRows(y.store, x, project, auth, "", NetworkIdentity);
    case CloseSession(x) => QuietRows(y.store, x, "", None, "", NetworkIdentity);
    case RevokeSession(x) => QuietRows(y.store, x, "", None, "", NetworkIdentity);
    case _ =>
  }

  /** Sessions and identity records leave the checkpoints alone. */
  lemma QuietRows(s: Store, x: Id, project: Id, auth: Option<Identity>, id: Id, identity: Identity)
    ensures Settle(s, CreateSession(s, x, project, auth)).checkpoints == s.checkpoints
    ensures Settle(s, Shutting(s, x)).checkpoints == s.checkpoints
    ensures Settle(s, Revoking(s, x)).checkpoints == s.checkpoints
    ensures Settle(s, RecordOperationAuth(s, id, identity)).checkpoints == s.checkpoints
  {
  }

  lemma NoRows(rows: map<Id, Checkpoint>, id: Id)
    ensures SameMutationRows(rows, rows, id)
  {
  }

  lemma AddedRow(s: Store, c: Id, row: Checkpoint, id: Id)
    requires row.operation != Some(id)
    ensures SameMutationRows(s.checkpoints, Settle(s, CreateCheckpoint(s, c, row)).checkpoints, id)
  {
  }

  lemma OtherRow(s: Store, c: Id, after: Snapshot, diff: Digest, id: Id)
    requires c in s.checkpoints && s.checkpoints[c].operation != Some(id)
    ensures SameMutationRows(s.checkpoints, Settle(s, FinalizeCheckpoint(s, c, after, diff)).checkpoints, id)
  {
  }

  lemma RestoredRow(s: Store, c: Id, id: Id)
    ensures SameMutationRows(s.checkpoints, Settle(s, MarkCheckpointRestored(s, c)).checkpoints, id)
  {
  }

  lemma NotEntered(y: System, l: Step, id: Id)
    requires Stuck(y, id) && id in Next(y, l).store.operations
    requires Next(y, l).store.operations[id].project == y.store.operations[id].project
    ensures !Holds(Next(y, l), id)
    ensures !(l.ReconcileSucceeded? && l.id == id && Next(y, l) != y)
  {
    hide SoleOpen;
    hide Sealed;
    hide Trail;
    hide MayReconcile;
    hide Reconcilable;
    hide DriverNext;
    hide ApprovalNext;
    hide SideNext;
    HolderComesFromEntering(y, l, y.store.operations[id].project);
  }

  ghost predicate HolderOrigin(y: System, l: Step, z: System, project: Id) {
    project in z.holders ==>
      (project in y.holders && y.holders[project] == z.holders[project])
      || (l.ReconcileEnter? && l.id == z.holders[project] && l.id in y.waiting && SoleOpen(y.store.checkpoints, l.id))
  }

  lemma HolderComesFromEntering(y: System, l: Step, project: Id)
    ensures HolderOrigin(y, l, Next(y, l), project)
  {
    hide Sealed;
    hide SoleOpen;
    hide Trail;
    hide MayReconcile;
    hide DriverNext;
    hide ApprovalNext;
    hide SideNext;
    WaitingElsewhere(y, l);
  }

  // ---------------------------------------------------------------- what is lost

  lemma LostStep(y: System, l: Step, id: Id)
    requires Invariant(y) && Lost(y, id)
    ensures Lost(Next(y, l), id)
  {
    hide Next;
    hide Invariant;
    hide SoleOpen;
    hide Holds;
    hide Trail;
    hide Reconcilable;
    EveryRowStep(y, l, id);
    StuckStep(y, l, id);
    NotEntered(y, l, id);
    StaysUnreconcilable(y, l, id);
    if l.ReconcileFailed? && l.id == id { FailsOnly(y, l, id); }
  }

  /** A project whose slot is held takes no new mutation. */
  lemma NoNewMutation(y: System, l: Step, id: Id, other: Id)
    requires Invariant(y) && id in y.store.operations && HoldsSlot(y.store.operations[id])
    requires other in Next(y, l).store.operations && other !in y.store.operations
    ensures var o := Next(y, l).store.operations[other];
            !(o.mutation && o.project == y.store.operations[id].project)
  {
    hide Invariant;
    hide Trail;
    EveryRowStep(y, l, other);
    AcceptedMutation(y, l, id);
  }

  lemma AcceptedMutation(y: System, l: Step, id: Id)
    requires id in y.store.operations && HoldsSlot(y.store.operations[id])
    ensures l.Accept? && Next(y, l).store != y.store ==>
              && Next(y, l).store.operations == y.store.operations[l.id := Operation(l.project, l.session, l.key, l.hash,
                                                                                  l.mutation, Received, None, None)]
              && !(l.mutation && l.project == y.store.operations[id].project)
  {
    hide DriverNext;
    hide ApprovalNext;
    hide ReconcileNext;
    if l.Accept? { assert HoldsProject(y.store, id, y.store.operations[id].project); }
  }

  /** A lost mutation occupies its project for ever: it stays unknown, and no other mutation of the project
      is ever stored. */
  lemma {:induction false} HeldForever(y: System, more: seq<Step>, id: Id)
    requires Invariant(y) && Lost(y, id) && y.store.operations[id].mutation
    ensures var z := Run(y, more);
            && Invariant(z) && Lost(z, id) && HoldsSlot(z.store.operations[id])
            && z.store.operations[id].project == y.store.operations[id].project
            && forall o | o in z.store.operations && z.store.operations[o].mutation
                          && z.store.operations[o].project == y.store.operations[id].project ::
                 o in y.store.operations
  {
    hide Invariant;
    hide CanSucceed;
    hide Reconcilable;
    hide Next;
    hide Trail;
    if more != [] {
      var shorter, l := more[..|more| - 1], more[|more| - 1];
      var z := Run(y, shorter);
      HeldForever(y, shorter, id);
      KeepsInvariant(z, l);
      LostStep(z, l, id);
      EveryRowStep(z, l, id);
      forall o | o in Next(z, l).store.operations && Next(z, l).store.operations[o].mutation
                 && Next(z, l).store.operations[o].project == y.store.operations[id].project
        ensures o in y.store.operations
      {
        if o in z.store.operations { EveryRowStep(z, l, o); } else { NoNewMutation(z, l, id, o); }
      }
    }
  }

  // ---------------------------------------------------------------- what is open

  const DONE := Payload("succeeded", "", None)

  lemma {:induction false} Bounded(names: set<string>) returns (n: nat)
    ensures forall x :: x in names ==> |x| <= n
    decreases |names|
  {
    n := 0;
    if names != {} {
      var x :| x in names;
      var m := Bounded(names - {x});
      n := if |x| <= m then m else |x|;
      assert forall w :: w in names ==> w == x || w in names - {x};
    }
  }

  /** There is always a fresh session id. */
  lemma FreshSession(s: Store) returns (x: Id)
    ensures x !in s.sessions && !NamedByOperation(s, x)
  {
    var named := set id | id in s.operations && s.operations[id].session.Some? :: s.operations[id].session.value;
    var n := Bounded(s.sessions.Keys + named);
    x := seq(n + 1, _ => 'x');
    assert |x| == n + 1 && x !in named && x !in s.sessions;
  }

  /** The tables, the queue and the locks as they were, but for sessions. */
  predicate SameWork(y: System, z: System) {
    && z.store.operations == y.store.operations && z.store.checkpoints == y.store.checkpoints
    && z.waiting == y.waiting && z.holders == y.holders
  }

  /** The operation's own session, or a successor opened under the same identity, may reconcile it. */
  lemma SomebodyComes(y: System, id: Id) returns (more: seq<Step>, z: System, caller: Id)
    requires Invariant(y) && Reconcilable(y.store, id) && y.store.operations[id].state == Unknown
    ensures z == Run(y, more) && Invariant(z) && SameWork(y, z) && MayReconcile(z.store, id, caller)
  {
    hide Invariant;
    hide Next;
    hide SessionIdentityOf;
    hide NamedByOperation;
    var origin := y.store.operations[id].session.value;
    if y.store.sessions[origin].status == Active {
      more, z, caller := [], y, origin;
    } else if y.store.sessions[origin].status == Closing {
      var closed := Closes(y, origin);
      KeepsInvariant(y, CloseSession(origin));
      var open;
      open, z, caller := OpensSuccessor(closed, id);
      more := [CloseSession(origin), open];
      RunTwo(y, CloseSession(origin), open);
    } else {
      var open;
      open, z, caller := OpensSuccessor(y, id);
      more := [open];
      RunOne(y, open);
    }
  }

  lemma Closes(y: System, x: Id) returns (z: System)
    requires x in y.store.sessions && y.store.sessions[x].status == Closing
    ensures z == Next(y, CloseSession(x)) && SameWork(y, z)
    ensures z.store.sessions == y.store.sessions[x := y.store.sessions[x].(status := Closed, reason := Some("bridge_shutdown"))]
  {
    hide DriverNext;
    hide ApprovalNext;
    hide ReconcileNext;
    hide CreateOperation;
    hide Recovered;
    z := Next(y, CloseSession(x));
  }

  /** A successor of a session that ended with the service. */
  lemma OpensSuccessor(y: System, id: Id) returns (open: Step, z: System, caller: Id)
    requires Invariant(y) && id in y.store.operations && y.store.operations[id].state == Unknown
    requires y.store.operations[id].session.Some? && y.store.operations[id].session.value in y.store.sessions
    requires y.store.sessions[y.store.operations[id].session.value].project == y.store.operations[id].project
    requires EndedWithService(y.store.sessions[y.store.operations[id].session.value])
    ensures z == Next(y, open) && Invariant(z) && SameWork(y, z) && MayReconcile(z.store, id, caller)
  {
    hide Invariant;
    hide Consistent;
    hide SessionIdentityOf;
    hide NamedByOperation;
    hide DriverNext;
    hide ApprovalNext;
    hide ReconcileNext;
    hide CreateOperation;
    hide Recovered;
    var origin, project := y.store.operations[id].session.value, y.store.operations[id].project;
    var identity := SessionIdentityOf(y.store.audit, origin);
    caller := FreshSession(y.store);
    open := OpenSession(caller, project, identity);
    z := Next(y, open);
    KeepsInvariant(y, open);
    InvariantConsistent(y);
    Access.NewSessionIdentity(y.store, z.store, caller, project, identity);
    OpenIdentityStep(y, open, origin);
  }

  lemma InvariantConsistent(y: System)
    requires Invariant(y)
    ensures Consistent(y.store)
  {
    hide Consistent;
  }

  /** If need be somebody asks and others let go, and the operation takes the lock. */
  lemma TakesLock(y: System, id: Id) returns (more: seq<Step>, z: System)
    requires Invariant(y) && id in y.store.operations && y.store.operations[id].state == Unknown
    requires CanSucceed(y, id)
    ensures z == Run(y, more) && Invariant(z) && Holds(z, id) && z.store.operations[id].state == Unknown
  {
    hide Invariant;
    hide SoleOpen;
    hide Sealed;
    hide Next;
    hide Reconcilable;
    hide MayReconcile;
    if Holds(y, id) {
      more, z := [], y;
    } else if id in y.waiting {
      more, z := Acquires(y, id);
    } else {
      var come, w, caller := SomebodyComes(y, id);
      var asked := Asks(w, id, caller);
      KeepsInvariant(w, ReconcileAsk(id, caller));
      var rest;
      rest, z := Acquires(asked, id);
      RunOne(w, ReconcileAsk(id, caller));
      RunsOn(y, come, [ReconcileAsk(id, caller)]);
      more := come + [ReconcileAsk(id, caller)] + rest;
      RunsOn(y, come + [ReconcileAsk(id, caller)], rest);
    }
  }

  lemma Asks(y: System, id: Id, caller: Id) returns (z: System)
    requires MayReconcile(y.store, id, caller) && y.store.operations[id].state == Unknown
    ensures z == Next(y, ReconcileAsk(id, caller)) && z.store == y.store && id in z.waiting && z.holders == y.holders
  {
    hide Trail;
    hide Sealed;
    hide SoleOpen;
    hide SideNext;
    hide SessionIdentityOf;
    z := Next(y, ReconcileAsk(id, caller));
  }

  lemma Acquires(y: System, id: Id) returns (more: seq<Step>, z: System)
    requires Invariant(y) && id in y.waiting && SoleOpen(y.store.checkpoints, id)
    requires id in y.store.operations && y.store.operations[id].state == Unknown
    ensures z == Run(y, more) && Invariant(z) && Holds(z, id) && z.store == y.store
  {
    hide Consistent;
    hide RowHolds;
    hide DriverHolds;
    hide SoleOpen;
    hide Sealed;
    hide Next;
    hide Trail;
    var p := y.store.operations[id].project;
    if p in y.holders {
      assert HolderHolds(y.store, p, y.holders[p]);
      var abort := ReconcileAbort(y.holders[p]);
      var free := Aborts(y, y.holders[p]);
      z := Enters(free, id);
      more := [abort, ReconcileEnter(id)];
      RunTwo(y, abort, ReconcileEnter(id));
      KeepsInvariant(y, abort);
      KeepsInvariant(free, ReconcileEnter(id));
    } else {
      z := Enters(y, id);
      more := [ReconcileEnter(id)];
      RunOne(y, more[0]);
      KeepsInvariant(y, more[0]);
    }
  }

  lemma Aborts(y: System, h: Id) returns (z: System)
    requires Holds(y, h)
    ensures z == Next(y, ReconcileAbort(h)) && z.store == y.store
    ensures z.holders == y.holders - {y.store.operations[h].project} && z.waiting == y.waiting
  {
    hide Trail;
    hide Sealed;
    hide SideNext;
    hide MayReconcile;
    z := Next(y, ReconcileAbort(h));
  }

  lemma Enters(y: System, id: Id) returns (z: System)
    requires id in y.store.operations && id in y.waiting
    requires y.store.operations[id].project !in y.holders && SoleOpen(y.store.checkpoints, id)
    ensures z == Next(y, ReconcileEnter(id)) && z.store == y.store && Holds(z, id)
  {
    hide Trail;
    hide Sealed;
    hide SoleOpen;
    hide SideNext;
    hide MayReconcile;
    z := Next(y, ReconcileEnter(id));
  }

  /** The holder finalizes the sole checkpoint, then the operation succeeds. */
  lemma HolderSucceeds(y: System, id: Id) returns (more: seq<Step>)
    requires Invariant(y) && Holds(y, id) && y.store.operations[id].state == Unknown
    ensures SucceededIn(Run(y, more), id)
  {
    hide Consistent;
    hide RowHolds;
    hide DriverHolds;
    hide SoleOpen;
    hide Sealed;
    hide Trail;
    hide Next;
    assert HolderHolds(y.store, y.store.operations[id].project, id);
    if Sealed(y.store.checkpoints, id) {
      more := [ReconcileSucceeded(id, DONE)];
      RunOne(y, more[0]);
      SealedSucceeds(y, id);
    } else {
      var seal, z := Seals(y, id);
      more := [seal, ReconcileSucceeded(id, DONE)];
      RunTwo(y, more[0], more[1]);
      SealedSucceeds(z, id);
    }
  }

  predicate SucceededIn(y: System, id: Id) {
    id in y.store.operations && y.store.operations[id].state == Succeeded
  }

  lemma SealedSucceeds(y: System, id: Id)
    requires Holds(y, id) && y.store.operations[id].state == Unknown && Sealed(y.store.checkpoints, id)
    ensures SucceededIn(Next(y, ReconcileSucceeded(id, DONE)), id)
  {
    hide Sealed;
    hide Trail;
    hide DriverNext;
    hide ApprovalNext;
    hide SideNext;
    hide MayReconcile;
  }

  lemma Seals(y: System, id: Id) returns (seal: Step, z: System)
    requires Holds(y, id) && SoleOpen(y.store.checkpoints, id)
    ensures z == Next(y, seal) && z.store.operations == y.store.operations && z.holders == y.holders
    ensures Sealed(z.store.checkpoints, id)
  {
    hide Trail;
    hide DriverNext;
    hide ApprovalNext;
    hide ReconcileNext;
    hide CreateOperation;
    hide Recovered;
    var c :| c in y.store.checkpoints && SoleOpenRow(y.store.checkpoints, c, id);
    seal := ReconcileSeal(id, c, y.store.checkpoints[c].before, Digest(map[], map[]));
    z := Next(y, seal);
    assert SealedBy(z.store.checkpoints[c], id);
  }

  predicate FailedIn(y: System, id: Id) {
    id in y.store.operations && y.store.operations[id].state == Failed
  }

  lemma Fails(y: System, id: Id, caller: Id)
    requires MayReconcile(y.store, id, caller) && y.store.operations[id].state == Unknown
    ensures FailedIn(Next(y, ReconcileFailed(id, caller, DONE)), id)
  {
    hide Trail;
    hide Sealed;
    hide SoleOpen;
    hide SideNext;
    hide SessionIdentityOf;
  }

  /** An unknown operation has a continuation in which it ends as succeeded exactly when it is already being
      reconciled as succeeded, or it has one mutation checkpoint that is not finalized and its session is
      open or ended with the service, or somebody has passed that check and waits. */
  lemma UnknownCanSucceed(steps: seq<Step>, id: Id)
    requires id in Run(INITIAL, steps).store.operations && Run(INITIAL, steps).store.operations[id].state == Unknown
    ensures (exists more :: SucceededIn(Run(Run(INITIAL, steps), more), id)) <==> CanSucceed(Run(INITIAL, steps), id)
  {
    hide Next;
    hide Run;
    hide Invariant;
    hide SoleOpen;
    hide Holds;
    hide CanSucceed;
    var y := Run(INITIAL, steps);
    Reachable(steps);
    if CanSucceed(y, id) {
      var taken, z := TakesLock(y, id);
      var more := HolderSucceeds(z, id);
      RunsOn(y, taken, more);
      assert SucceededIn(Run(y, taken + more), id);
    } else {
      HolderCanSucceed(y, id);
      forall more ensures !SucceededIn(Run(y, more), id) {
        StuckForever(y, more, id);
      }
    }
  }

  lemma HolderCanSucceed(y: System, id: Id)
    ensures Holds(y, id) ==> CanSucceed(y, id)
  {
  }

  /** It has one in which it ends as failed exactly when its session is open or ended with the service. */
  lemma UnknownCanFail(steps: seq<Step>, id: Id)
    requires id in Run(INITIAL, steps).store.operations && Run(INITIAL, steps).store.operations[id].state == Unknown
    ensures (exists more :: FailedIn(Run(Run(INITIAL, steps), more), id)) <==> Reconcilable(Run(INITIAL, steps).store, id)
  {
    hide Next;
    hide Run;
    hide Invariant;
    hide Reconcilable;
    hide MayReconcile;
    var y := Run(INITIAL, steps);
    Reachable(steps);
    if Reconcilable(y.store, id) {
      var come, z, caller := SomebodyComes(y, id);
      Fails(z, id, caller);
      RunOne(z, ReconcileFailed(id, caller, DONE));
      RunsOn(y, come, [ReconcileFailed(id, caller, DONE)]);
      assert FailedIn(Run(y, come + [ReconcileFailed(id, caller, DONE)]), id);
    } else {
      forall more ensures !FailedIn(Run(y, more), id) {
        NeverFails(y, more, id);
      }
    }
  }

  /** Unknown without anybody who may reconcile it, or succeeded. */
  predicate NotFailing(y: System, id: Id) {
    && id in y.store.operations && !Reconcilable(y.store, id)
    && (y.store.operations[id].state == Unknown || y.store.operations[id].state == Succeeded)
  }

  lemma {:induction false} NeverFails(y: System, more: seq<Step>, id: Id)
    requires Invariant(y) && NotFailing(y, id)
    ensures Invariant(Run(y, more)) && NotFailing(Run(y, more), id)
  {
    hide Invariant;
    hide Reconcilable;
    hide Next;
    hide Trail;
    if more != [] {
      var shorter, l := more[..|more| - 1], more[|more| - 1];
      var z := Run(y, shorter);
      NeverFails(y, shorter, id);
      KeepsInvariant(z, l);
      EveryRowStep(z, l, id);
      StaysUnreconcilable(z, l, id);
      if l.ReconcileFailed? && l.id == id { FailsOnly(z, l, id); }
      if l.ReconcileSucceeded? && l.id == id { SucceedsOnly(z, l, id); }
    }
  }

  lemma SucceedsOnly(y: System, l: Step, id: Id)
    requires l.ReconcileSucceeded? && l.id == id && id in y.store.operations
    ensures id in Next(y, l).store.operations
    ensures Next(y, l).store.operations[id].state == y.store.operations[id].state
            || Next(y, l).store.operations[id].state == Succeeded
  {
    hide Trail;
    hide SideNext;
    hide MayReconcile;
    assert Next(y, l) == ReconcileNext(y, l);
  }

  predicate SettledIn(y: System, id: Id) {
    SucceededIn(y, id) || FailedIn(y, id)
  }

  /** An unknown operation has a continuation that settles it exactly when it is not lost. */
  lemma UnknownCanSettle(steps: seq<Step>, id: Id)
    requires id in Run(INITIAL, steps).store.operations && Run(INITIAL, steps).store.operations[id].state == Unknown
    ensures (exists more :: SettledIn(Run(Run(INITIAL, steps), more), id)) <==> !Lost(Run(INITIAL, steps), id)
  {
    hide Next;
    hide Run;
    hide CanSucceed;
    hide Reconcilable;
    hide SucceededIn;
    hide FailedIn;
    var y := Run(INITIAL, steps);
    UnknownCanSucceed(steps, id);
    UnknownCanFail(steps, id);
    if more :| SettledIn(Run(y, more), id) {
      assert SucceededIn(Run(y, more), id) || FailedIn(Run(y, more), id);
    }
    if more :| SucceededIn(Run(y, more), id) { assert SettledIn(Run(y, more), id); }
    if more :| FailedIn(Run(y, more), id) { assert SettledIn(Run(y, more), id); }
  }

  lemma {:induction false} RunsOn(y: System, a: seq<Step>, b: seq<Step>)
    ensures Run(y, a + b) == Run(Run(y, a), b)
  {
    hide Next;
    if b == [] {
      assert a + b == a;
    } else {
      RunsOn(y, a, b[..|b| - 1]);
      assert (a + b)[..|a + b| - 1] == a + b[..|b| - 1];
    }
  }

  lemma RunOne(y: System, a: Step)
    ensures Run(y, [a]) == Next(y, a)
  {
    hide Next;
    assert [a][..0] == [];
  }

  lemma RunTwo(y: System, a: Step, b: Step)
    ensures Run(y, [a, b]) == Next(Next(y, a), b)
  {
    hide Next;
    RunOne(y, a);
    assert [a, b][..1] == [a];
  }

  // ---------------------------------------------------------------- who may reconcile

  /** A reconciliation gets past its checks exactly for an unknown operation, on behalf of an active session of
      its project: its own one, or, once that one has ended with the service, one under the same identity. */
  lemma ReconciledByOwner(y: System, l: Step)
    requires l.ReconcileFailed? || l.ReconcileAsk?
    ensures Next(y, l) != y <==>
              && l.id in y.store.operations && l.caller in y.store.sessions
              && var row, caller := y.store.operations[l.id], y.store.sessions[l.caller];
              && row.state == Unknown && caller.project == row.project && caller.status == Active
              && (row.session == Some(l.caller)
                  || (&& row.session.Some? && row.session.value in y.store.sessions
                      && var origin := y.store.sessions[row.session.value];
                      && origin.project == row.project
                      && ((origin.status == Blocked && origin.reason == Some("bridge_restart"))
                          || (origin.status == Closed && origin.reason == Some("bridge_shutdown")))
                      && SessionIdentityOf(y.store.audit, row.session.value) == SessionIdentityOf(y.store.audit, l.caller)))
  {
    hide SessionIdentityOf;
    if l.ReconcileAsk? {
      assert (y.waiting + multiset{l.id})[l.id] == y.waiting[l.id] + 1;
    }
  }
}
