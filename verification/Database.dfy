/** The single-process store: one method per transaction of `db/store.py`. Each method is proved
    against its specification function, so a raising call leaves every table and the log unchanged. */
module DatabaseStore {
  import opened Basics
  import opened StoreModel
  import opened AuditHistory

  datatype CreateResult = Row(id: Id, existing: bool) | ActiveConflict(holder: Id) | DuplicateRow

  /** What recovery reports. The source's lists are sets here, their order being free; `operations`
      merges its lists of cancelled, failed and unknown operations. */
  datatype RecoveryReport = RecoveryReport(
    sessionsBlocked: set<Id>, operations: map<Id, OpState>, approvalsCancelled: set<Id>)

  /** Nothing that recovery would select. */
  ghost predicate Quiet(s: Store) {
    && (forall id :: id in s.sessions ==> !Open(s.sessions[id]))
    && (forall id :: id in s.operations ==> !InFlight(s.operations[id].state))
    && (forall id :: id in s.approvals ==> s.approvals[id].status != Pending)
  }

  /** The rows recovery selects, with the outcome of each. */
  ghost function ReportOf(s: Store): RecoveryReport {
    RecoveryReport(
      set id | id in s.sessions && Open(s.sessions[id]),
      map id | id in s.operations && InFlight(s.operations[id].state) :: RecoveredState(s.operations[id]),
      set id | id in s.approvals && s.approvals[id].status == Pending)
  }

  ghost predicate SessionsPhase(s: Store, t: Store, blocked: set<Id>) {
    && t.operations == s.operations && t.approvals == s.approvals && t.checkpoints == s.checkpoints
    && t.sessions.Keys == s.sessions.Keys
    && (forall id :: id in s.sessions ==> t.sessions[id] == RecoveredSession(s.sessions[id]))
    && blocked == (set id | id in s.sessions && Open(s.sessions[id]))
    && (blocked == {} ==> t.audit == s.audit)
  }

  /** An approval once its operation has been recovered: withdrawn if the operation awaited it. */
  function ApprovalAfter(a: Approval, o: Operation): Approval {
    if o.state.AwaitingApproval? then RecoveredApproval(a) else a
  }

  ghost predicate OperationsPhase(s: Store, t: Store, rows: set<Id>) {
    && t.sessions == s.sessions && t.checkpoints == s.checkpoints
    && t.operations.Keys == s.operations.Keys && t.approvals.Keys == s.approvals.Keys
    && (forall id :: id in s.operations ==> t.operations[id] == RecoveredOperation(s.operations[id]))
    && (forall id :: id in s.approvals ==>
          t.approvals[id] == if id in s.operations then ApprovalAfter(s.approvals[id], s.operations[id])
                             else s.approvals[id])
    && rows == (set id | id in s.operations && InFlight(s.operations[id].state))
    && (rows == {} ==> t.audit == s.audit)
  }

  ghost predicate OrphansPhase(s: Store, t: Store, orphans: set<Id>) {
    && t.sessions == s.sessions && t.checkpoints == s.checkpoints && t.operations == s.operations
    && t.approvals.Keys == s.approvals.Keys
    && orphans == (set id | id in s.approvals && id in s.operations && s.approvals[id].status == Pending
                            && s.operations[id].state != AwaitingApproval)
    && (forall id :: id in s.approvals ==>
          t.approvals[id] == if id in orphans then RecoveredApproval(s.approvals[id]) else s.approvals[id])
    && (orphans == {} ==> t.audit == s.audit)
  }

  /** The three loops of recovery together: after the second, no row awaits approval, so the third
      reaches every approval still pending. */
  lemma PhasesCompose(s0: Store, s1: Store, s2: Store, s3: Store,
                      blocked: set<Id>, settled: set<Id>, orphans: set<Id>)
    requires ApprovalsSound(s0) && HistoryHolds(s3) && s0.audit <= s3.audit
    requires OneEventEach(s0, s1) && OneEventEach(s1, s2) && OneEventEach(s2, s3)
    requires SessionsPhase(s0, s1, blocked)
    requires OperationsPhase(s1, s2, settled)
    requires OrphansPhase(s2, s3, orphans)
    ensures Recovered(s0, s3)
  {
    hide HistoryHolds;
    hide OneEventEach;
    hide RecoveredSession;
    hide RecoveredOperation;
    hide RecoveredApproval;
    PhaseEvents(s0, s1, s2, s3, blocked, settled, orphans);
    forall id | id in s0.approvals ensures s3.approvals[id] == RecoveredApproval(s0.approvals[id]) {
      assert s2.operations[id] == RecoveredOperation(s0.operations[id]);
      ApprovalPhases(s0.approvals[id], s0.operations[id]);
    }
  }

  /** Recovery of its operation leaves an approval as it was, or withdraws it. */
  lemma ApprovalPhases(a: Approval, o: Operation)
    ensures RecoveredOperation(o).state != AwaitingApproval
    ensures RecoveredApproval(RecoveredApproval(a)) == RecoveredApproval(a)
    ensures RecoveredApproval(a).status != Pending
    ensures a.status != Pending ==> RecoveredApproval(a) == a
  {
  }

  lemma PhasesQuiet(s0: Store, s1: Store, s2: Store, s3: Store,
                    blocked: set<Id>, settled: set<Id>, orphans: set<Id>)
    requires SessionsPhase(s0, s1, blocked)
    requires OperationsPhase(s1, s2, settled)
    requires OrphansPhase(s2, s3, orphans)
    ensures Quiet(s0) ==> s3.audit == s0.audit
  {
    if Quiet(s0) {
      assert blocked == {} && settled == {};
      assert forall id :: id in s2.approvals ==> s2.approvals[id].status != Pending;
      assert orphans == {};
    }
  }

  lemma PhaseEvents(s0: Store, s1: Store, s2: Store, s3: Store,
                    blocked: set<Id>, settled: set<Id>, orphans: set<Id>)
    requires OneEventEach(s0, s1) && OneEventEach(s1, s2) && OneEventEach(s2, s3)
    requires SessionsPhase(s0, s1, blocked)
    requires OperationsPhase(s1, s2, settled)
    requires OrphansPhase(s2, s3, orphans)
    ensures OneEventEach(s0, s3)
  {
    hide Trail;
    hide IdentitiesKept;
    KeptTransitive(s0.audit, s1.audit, s2.audit);
    KeptTransitive(s0.audit, s2.audit, s3.audit);
  }

  /** Recovery leaves nothing it would select, and changes no table when there was nothing. */
  lemma RecoveredIsQuiet(s: Store, t: Store)
    requires Recovered(s, t)
    ensures Quiet(t)
    ensures Quiet(s) ==> t.sessions == s.sessions && t.operations == s.operations && t.approvals == s.approvals
  {
    hide HistoryHolds;
    RecoveryOutcome(s, t);
    if Quiet(s) {
      assert t.sessions == s.sessions && t.operations == s.operations && t.approvals == s.approvals;
    }
  }

  lemma RecoveryComplete(s0: Store, s1: Store, s2: Store, s3: Store,
                         blocked: set<Id>, settled: set<Id>, orphans: set<Id>)
    requires Consistent(s0) && HistoryHolds(s3) && s0.audit <= s3.audit
    requires OneEventEach(s0, s1) && OneEventEach(s1, s2) && OneEventEach(s2, s3)
    requires SessionsPhase(s0, s1, blocked)
    requires OperationsPhase(s1, s2, settled)
    requires OrphansPhase(s2, s3, orphans)
    ensures Consistent(s3) && Recovered(s0, s3) && Quiet(s3)
    ensures Quiet(s0) ==> s3 == s0
  {
    PhasesCompose(s0, s1, s2, s3, blocked, settled, orphans);
    PhasesQuiet(s0, s1, s2, s3, blocked, settled, orphans);
    assert s3.checkpoints == s0.checkpoints;
    hide *;
    RecoveryConsistent(s0, s3);
    RecoveredIsQuiet(s0, s3);
  }

  /** Recovery row by row: what was in flight has one of three new states, an error that says why, and
      everything else that it had; what was settled or already unknown is left alone. */
  lemma RecoveredRows(s: Store, t: Store)
    requires Recovered(s, t)
    ensures t.operations.Keys == s.operations.Keys && t.sessions.Keys == s.sessions.Keys
    ensures t.approvals.Keys == s.approvals.Keys && t.checkpoints == s.checkpoints
    ensures forall id :: id in s.operations ==>
              var was, now := s.operations[id], t.operations[id];
              if was.state.Succeeded? || was.state.Failed? || was.state.Cancelled? || was.state.Unknown? then now == was
              else
                && now == was.(state := now.state, error := now.error)
                && (now.state.Unknown? || now.state.Cancelled? || now.state.Failed?)
                && (now.state.Unknown? <==> was.mutation && (was.state.Dispatched? || was.state.Running?))
                && (now.state.Cancelled? <==> was.state.AwaitingApproval?)
                && now.error.Some? && now.error.value.approvalToken.None?
                && now.error.value.code == if now.state.Unknown? then "UNKNOWN_SIDE_EFFECT" else "BRIDGE_RESTARTED"
    ensures forall id :: id in s.sessions ==>
              t.sessions[id] == if s.sessions[id].status.Active? || s.sessions[id].status.Closing?
                then s.sessions[id].(status := Blocked, reason := Some("bridge_restart")) else s.sessions[id]
    ensures forall id :: id in s.approvals ==>
              t.approvals[id] == if s.approvals[id].status.Pending? then s.approvals[id].(status := Withdrawn) else s.approvals[id]
    ensures IdentitiesKept(s.audit, t.audit)
  {
    hide HistoryHolds;
    hide IdentitiesKept;
    hide Trail;
  }

  lemma NoEvents(s: Store)
    ensures OneEventEach(s, s)
  {
    hide Trail;
    assert IdentitiesKept(s.audit, s.audit);
  }

  /** The sessions but for `rows` have been recovered. */
  ghost predicate SessionsPartly(s: Store, t: Store, rows: set<Id>, blocked: set<Id>) {
    && HistoryHolds(t) && s.audit <= t.audit && OneEventEach(s, t)
    && t.operations == s.operations && t.approvals == s.approvals && t.checkpoints == s.checkpoints
    && t.sessions.Keys == s.sessions.Keys && rows <= blocked
    && blocked == (set id | id in s.sessions && Open(s.sessions[id]))
    && (forall id :: id in s.sessions ==>
          t.sessions[id] == if id in rows then s.sessions[id] else RecoveredSession(s.sessions[id]))
    && (blocked == {} ==> t.audit == s.audit)
  }

  lemma SessionsBegin(s: Store, blocked: set<Id>)
    requires HistoryHolds(s) && blocked == (set id | id in s.sessions && Open(s.sessions[id]))
    ensures SessionsPartly(s, s, blocked, blocked)
  {
    hide HistoryHolds;
    NoEvents(s);
  }

  lemma SessionsAdvance(s: Store, t: Store, rows: set<Id>, blocked: set<Id>, id: Id)
    requires SessionsPartly(s, t, rows, blocked) && id in rows
    ensures id in t.sessions
    ensures var row := t.sessions[id].(status := Blocked, reason := Some("bridge_restart"));
            SessionsPartly(s, t.(sessions := t.sessions[id := row],
                                 audit := t.audit + [SessionEvent(id, Some(t.sessions[id].status), Blocked)]),
                           rows - {id}, blocked)
  {
    hide HistoryHolds;
    hide OneEventEach;
    hide Trail;
    hide IdentitiesKept;
    var row := t.sessions[id].(status := Blocked, reason := Some("bridge_restart"));
    var u := t.(sessions := t.sessions[id := row],
                audit := t.audit + [SessionEvent(id, Some(t.sessions[id].status), Blocked)]);
    SessionWrite(t, u, id, row);
    SilentEvent(s, t, u);
  }

  /** The operations but for `rows` have been recovered, with their approvals. */
  ghost predicate OperationsPartly(s: Store, t: Store, rows: set<Id>, settled: set<Id>) {
    && HistoryHolds(t) && s.audit <= t.audit && OneEventEach(s, t)
    && t.sessions == s.sessions && t.checkpoints == s.checkpoints
    && t.operations.Keys == s.operations.Keys && t.approvals.Keys == s.approvals.Keys && rows <= settled
    && settled == (set id | id in s.operations && InFlight(s.operations[id].state))
    && (forall id :: id in s.operations ==>
          t.operations[id] == if id in rows then s.operations[id] else RecoveredOperation(s.operations[id]))
    && (forall id :: id in s.approvals ==>
          t.approvals[id] == if id in rows || id !in s.operations then s.approvals[id]
                             else ApprovalAfter(s.approvals[id], s.operations[id]))
    && (settled == {} ==> t.audit == s.audit)
  }

  lemma OperationsBegin(s: Store, settled: set<Id>)
    requires HistoryHolds(s) && settled == (set id | id in s.operations && InFlight(s.operations[id].state))
    ensures OperationsPartly(s, s, settled, settled)
  {
    hide HistoryHolds;
    NoEvents(s);
  }

  lemma OperationsAdvance(s: Store, t: Store, u: Store, rows: set<Id>, settled: set<Id>, id: Id)
    requires OperationsPartly(s, t, rows, settled) && id in rows && id in t.operations
    requires HistoryHolds(u) && t.audit <= u.audit && OneEventEach(t, u)
    requires u.sessions == t.sessions && u.checkpoints == t.checkpoints && u.approvals.Keys == t.approvals.Keys
    requires u.operations == t.operations[id := RecoveredOperation(t.operations[id])]
    requires forall other :: other in u.approvals ==>
               u.approvals[other] == if other == id then ApprovalAfter(t.approvals[id], t.operations[id])
                                     else t.approvals[other]
    ensures OperationsPartly(s, u, rows - {id}, settled)
  {
    hide HistoryHolds;
    hide OneEventEach;
    hide RecoveredOperation;
    hide ApprovalAfter;
    hide InFlight;
    RowEvent(s, t, u, id);
  }

  lemma HistoryOf(s: Store)
    requires Consistent(s)
    ensures HistoryHolds(s)
  {
    hide HistoryHolds;
  }

  /** One more operation moved, for the first time. */
  lemma RowEvent(s: Store, t: Store, u: Store, id: Id)
    requires OneEventEach(s, t) && OneEventEach(t, u)
    requires s.operations.Keys == t.operations.Keys == u.operations.Keys && id in s.operations
    requires t.operations[id] == s.operations[id]
    requires u.operations == t.operations[id := u.operations[id]]
    ensures OneEventEach(s, u)
  {
    hide Trail;
    hide IdentityOf;
    hide SessionIdentityOf;
    forall o ensures Trail(u.audit, o) == Trail(s.audit, o) + Moved(s, u, o) {
      assert Trail(u.audit, o) == Trail(s.audit, o) + Moved(s, t, o) + Moved(t, u, o);
    }
  }

  /** An event that moves no operation and records no identity. */
  lemma SilentEvent(s: Store, t: Store, u: Store)
    requires OneEventEach(s, t) && u.operations == t.operations && IdentitiesKept(t.audit, u.audit)
    requires forall id :: Trail(u.audit, id) == Trail(t.audit, id)
    ensures OneEventEach(s, u)
  {
    hide Trail;
    hide IdentityOf;
    hide SessionIdentityOf;
    assert forall id :: Moved(s, u, id) == Moved(s, t, id);
  }

  lemma TakenMeans(approvals: map<Id, Approval>, tokenHash: Id)
    ensures (set other | other in approvals && approvals[other].tokenHash == tokenHash) != {}
            <==> TokenTaken(approvals, tokenHash)
  {
    var taken := set other | other in approvals && approvals[other].tokenHash == tokenHash;
    if other :| other in approvals && approvals[other].tokenHash == tokenHash { assert other in taken; }
  }

  class Database {
    var sessions: map<Id, Session>
    var operations: map<Id, Operation>
    var approvals: map<Id, Approval>
    var checkpoints: map<Id, Checkpoint>
    var audit: seq<Event>

    function Contents(): (s: Store)
      reads this
    {
      Store(sessions, operations, approvals, checkpoints, audit)
    }

    ghost predicate Valid()
      reads this
    {
      Consistent(Contents())
    }

    constructor ()
      ensures Valid() && Contents() == EMPTY_STORE
    {
      sessions, operations, approvals, checkpoints, audit := map[], map[], map[], map[], [];
      new;
      assert StatusesOf(Contents()) == Statuses(map[], map[], map[]);
    }

    // -------------------------------------------------------------- sessions

    method CreateSession(id: Id, project: Id, auth: Option<Identity>) returns (error: Option<StoreError>)
      requires Valid()
      modifies this
      ensures Valid()
      ensures Contents() == Settle(old(Contents()), StoreModel.CreateSession(old(Contents()), id, project, auth))
      ensures error.None? <==> id !in old(sessions)
      ensures error.Some? ==> error == Some(IntegrityViolation) && Contents() == old(Contents())
      ensures error.None? ==>
                && sessions == old(sessions)[id := Session(project, Active, None)]
                && operations == old(operations) && approvals == old(approvals) && checkpoints == old(checkpoints)
    {
      hide Consistent;
      CreateSessionConsistent(Contents(), id, project, auth);
      if id in sessions { return Some(IntegrityViolation); }
      sessions := sessions[id := Session(project, Created, None)];
      audit := audit + [SessionEvent(id, None, Created)];
      sessions := sessions[id := sessions[id].(status := Active)];
      audit := audit + [SessionEvent(id, Some(Created), Active)];
      if auth.Some? {
        audit := audit + [SessionAuthEvent(id, auth.value)];
      }
      assert sessions == old(sessions)[id := Session(project, Active, None)];
      assert auth.None? ==> audit == audit + [];
      return None;
    }

    method TransitionSession(id: Id, to: SessionStatus, reason: Option<string>) returns (error: Option<StoreError>)
      requires Valid()
      modifies this
      ensures Valid()
      ensures Contents() == Settle(old(Contents()), StoreModel.TransitionSession(old(Contents()), id, to, reason))
      ensures error.None? <==> StoreModel.TransitionSession(old(Contents()), id, to, reason).Done?
      ensures error.None? <==>
                id in old(sessions) && (to == old(sessions)[id].status || SessionEdge(old(sessions)[id].status, to))
      ensures error.Some? ==> Contents() == old(Contents())
      ensures error.None? ==> sessions == old(sessions)[id := old(sessions)[id].(status := to, reason := reason)]
      ensures operations == old(operations) && approvals == old(approvals) && checkpoints == old(checkpoints)
    {
      TransitionSessionConsistent(Contents(), id, to, reason);
      if id !in sessions { return Some(RowNotFound); }
      var current := sessions[id];
      if to != current.status && !SessionEdge(current.status, to) { return Some(InvalidTransition); }
      sessions := sessions[id := current.(status := to, reason := reason)];
      if to != current.status {
        audit := audit + [SessionEvent(id, Some(current.status), to)];
      }
      return None;
    }

    /** Shutdown: every active or closing session becomes closed, through closing. */
    method CloseActiveSessions(reason: string)
      requires Valid()
      modifies this
      ensures Valid()
      ensures sessions.Keys == old(sessions).Keys
      ensures forall id :: id in sessions ==>
                sessions[id] == if Open(old(sessions)[id])
                                then old(sessions)[id].(status := Closed, reason := Some(reason))
                                else old(sessions)[id]
      ensures operations == old(operations) && approvals == old(approvals) && checkpoints == old(checkpoints)
    {
      hide Consistent;
      var rows := set id | id in sessions && Open(sessions[id]);
      while rows != {}
        invariant Valid()
        invariant rows <= sessions.Keys == old(sessions).Keys
        invariant operations == old(operations) && approvals == old(approvals) && checkpoints == old(checkpoints)
        invariant forall id :: id in rows ==> sessions[id] == old(sessions)[id] && Open(sessions[id])
        invariant forall id :: id in sessions && id !in rows ==>
                    sessions[id] == if Open(old(sessions)[id])
                                    then old(sessions)[id].(status := Closed, reason := Some(reason))
                                    else old(sessions)[id]
        decreases |rows|
      {
        var id :| id in rows;
        CloseSession(id, reason);
        rows := rows - {id};
      }
    }

    method CloseSession(id: Id, reason: string)
      requires Valid() && id in sessions && Open(sessions[id])
      modifies this
      ensures Valid()
      ensures sessions == old(sessions)[id := old(sessions)[id].(status := Closed, reason := Some(reason))]
      ensures operations == old(operations) && approvals == old(approvals) && checkpoints == old(checkpoints)
    {
      hide Consistent;
      if sessions[id].status == Active {
        var _ := TransitionSession(id, Closing, Some(reason));
      }
      var _ := TransitionSession(id, Closed, Some(reason));
    }

    /** Revocation: every active or closing session of the project becomes blocked. */
    method BlockActiveSessionsForProject(project: Id, reason: string) returns (blocked: set<Id>)
      requires Valid()
      modifies this
      ensures Valid()
      ensures sessions.Keys == old(sessions).Keys
      ensures blocked == set id | id in old(sessions) && old(sessions)[id].project == project
                                  && Open(old(sessions)[id])
      ensures forall id :: id in sessions ==>
                sessions[id] == if id in blocked
                                then old(sessions)[id].(status := Blocked, reason := Some(reason))
                                else old(sessions)[id]
      ensures operations == old(operations) && approvals == old(approvals) && checkpoints == old(checkpoints)
    {
      hide Consistent;
      blocked := set id | id in sessions && sessions[id].project == project && Open(sessions[id]);
      var rows := blocked;
      while rows != {}
        invariant Valid()
        invariant rows <= blocked && sessions.Keys == old(sessions).Keys
        invariant operations == old(operations) && approvals == old(approvals) && checkpoints == old(checkpoints)
        invariant forall id :: id in sessions ==>
                    if id in rows || id !in blocked then sessions[id] == old(sessions)[id]
                    else sessions[id] == old(sessions)[id].(status := Blocked, reason := Some(reason))
        decreases |rows|
      {
        var id :| id in rows;
        var _ := TransitionSession(id, Blocked, Some(reason));
        rows := rows - {id};
      }
    }

    // -------------------------------------------------------------- restart recovery

    /** One transaction that settles everything a crash left in flight. The rows of each table are
        visited in an arbitrary order; running it on what it left behind changes nothing at all. */
    method RecoverAfterRestart() returns (report: RecoveryReport)
      requires Valid()
      modifies this
      ensures Valid() && Recovered(old(Contents()), Contents()) && Quiet(Contents())
      ensures Quiet(old(Contents())) ==> Contents() == old(Contents())
      ensures report == ReportOf(old(Contents()))
      ensures operations.Keys == old(operations).Keys && sessions.Keys == old(sessions).Keys
      ensures approvals.Keys == old(approvals).Keys && checkpoints == old(checkpoints)
      ensures forall id :: id in old(operations) ==>
                  var was, now := old(operations)[id], operations[id];
                  if was.state.Succeeded? || was.state.Failed? || was.state.Cancelled? || was.state.Unknown? then now == was
                  else
                    && now == was.(state := now.state, error := now.error)
                    && (now.state.Unknown? || now.state.Cancelled? || now.state.Failed?)
                    && (now.state.Unknown? <==> was.mutation && (was.state.Dispatched? || was.state.Running?))
                    && (now.state.Cancelled? <==> was.state.AwaitingApproval?)
                    && now.error.Some? && now.error.value.approvalToken.None?
                    && now.error.value.code == if now.state.Unknown? then "UNKNOWN_SIDE_EFFECT" else "BRIDGE_RESTARTED"
      ensures forall id :: id in old(sessions) ==>
                sessions[id] == if old(sessions)[id].status.Active? || old(sessions)[id].status.Closing?
                  then old(sessions)[id].(status := Blocked, reason := Some("bridge_restart")) else old(sessions)[id]
      ensures forall id :: id in old(approvals) ==>
                approvals[id] == if old(approvals)[id].status.Pending? then old(approvals)[id].(status := Withdrawn) else old(approvals)[id]
      ensures IdentitiesKept(old(audit), audit)
    {
      ghost var s0 := Contents();
      report := RecoveryReport(
        set id | id in sessions && Open(sessions[id]),
        map id | id in operations && InFlight(operations[id].state) :: RecoveredState(operations[id]),
        set id | id in approvals && approvals[id].status == Pending);
      hide *;
      var blocked := RecoverSessions();
      ghost var s1 := Contents();
      var settled := RecoverOperations();
      ghost var s2 := Contents();
      var orphans := RecoverOrphanApprovals();
      RecoveryComplete(s0, s1, s2, Contents(), blocked, settled, orphans);
      RecoveredRows(s0, Contents());
    }

    method RecoverSessions() returns (blocked: set<Id>)
      requires Valid()
      modifies this`sessions, this`audit
      ensures HistoryHolds(Contents()) && old(audit) <= audit && OneEventEach(old(Contents()), Contents())
      ensures SessionsPhase(old(Contents()), Contents(), blocked)
    {
      hide Consistent;
      hide HistoryHolds;
      hide OneEventEach;
      ghost var start := Contents();
      HistoryOf(start);
      blocked := set id | id in sessions && Open(sessions[id]);
      var rows := blocked;
      SessionsBegin(start, blocked);
      while rows != {}
        invariant SessionsPartly(start, Contents(), rows, blocked)
        decreases |rows|
      {
        var id :| id in rows;
        SessionsAdvance(start, Contents(), rows, blocked, id);
        audit := audit + [SessionEvent(id, Some(sessions[id].status), Blocked)];
        sessions := sessions[id := sessions[id].(status := Blocked, reason := Some("bridge_restart"))];
        rows := rows - {id};
      }
    }

    method RecoverOperations() returns (settled: set<Id>)
      requires HistoryHolds(Contents())
      modifies this`operations, this`approvals, this`audit
      ensures HistoryHolds(Contents()) && old(audit) <= audit && OneEventEach(old(Contents()), Contents())
      ensures OperationsPhase(old(Contents()), Contents(), settled)
    {
      hide HistoryHolds;
      hide OneEventEach;
      ghost var start := Contents();
      settled := set id | id in operations && InFlight(operations[id].state);
      var rows := settled;
      OperationsBegin(start, settled);
      while rows != {}
        invariant OperationsPartly(start, Contents(), rows, settled)
        decreases |rows|
      {
        var id :| id in rows;
        ghost var before := Contents();
        RecoverOperationRow(id);
        OperationsAdvance(start, before, Contents(), rows, settled, id);
        rows := rows - {id};
      }
    }

    method RecoverOperationRow(id: Id)
      requires HistoryHolds(Contents()) && id in operations && InFlight(operations[id].state)
      modifies this`operations, this`approvals, this`audit
      ensures HistoryHolds(Contents()) && old(audit) <= audit && OneEventEach(old(Contents()), Contents())
      ensures operations == old(operations)[id := RecoveredOperation(old(operations)[id])]
      ensures approvals.Keys == old(approvals).Keys
      ensures forall other :: other in approvals ==>
                approvals[other] == if other == id then ApprovalAfter(old(approvals)[id], old(operations)[id])
                                    else old(approvals)[other]
    {
      hide IdentitiesKept;
      KeptTransitive(audit, audit, audit);
      hide HistoryHolds;
      hide Trail;
      var row := operations[id];
      var to: OpState;
      if row.state == AwaitingApproval {
        to := Cancelled;
      } else {
        to := if row.mutation && (row.state == Dispatched || row.state == Running) then Unknown else Failed;
      }
      var error := if to == Unknown then UNKNOWN_AFTER_RESTART else RESTARTED;
      if row.state == AwaitingApproval && id in approvals && approvals[id].status == Pending {
        ghost var before := Contents();
        approvals := approvals[id := approvals[id].(status := Withdrawn)];
        audit := audit + [ApprovalEvent(id, Some(Pending), Withdrawn)];
        ApprovalWrite(before, Contents(), id, approvals[id]);
      }
      ghost var middle := Contents();
      operations := operations[id := row.(state := to, error := Some(error))];
      audit := audit + [OperationEvent(id, Some(row.state), to)];
      OperationWrite(middle, Contents(), id, operations[id]);
      KeptTransitive(old(audit), middle.audit, audit);
    }

    method RecoverOrphanApprovals() returns (orphans: set<Id>)
      requires HistoryHolds(Contents())
      modifies this`approvals, this`audit
      ensures HistoryHolds(Contents()) && old(audit) <= audit && OneEventEach(old(Contents()), Contents())
      ensures OrphansPhase(old(Contents()), Contents(), orphans)
    {
      hide IdentitiesKept;
      hide HistoryHolds;
      hide Trail;
      hide OneEventEach;
      ghost var start := Contents();
      NoEvents(start);
      orphans := set id | id in approvals && id in operations && approvals[id].status == Pending
                       && operations[id].state != AwaitingApproval;
      var rows := orphans;
      while rows != {}
        invariant HistoryHolds(Contents()) && old(audit) <= audit && OneEventEach(old(Contents()), Contents())
        invariant rows <= orphans && approvals.Keys == old(approvals).Keys
        invariant forall id :: id in approvals ==>
                    if id in rows || id !in orphans then approvals[id] == old(approvals)[id]
                    else approvals[id] == RecoveredApproval(old(approvals)[id])
        invariant orphans == {} ==> audit == old(audit)
        decreases |rows|
      {
        var id :| id in rows;
        ghost var before := Contents();
        approvals := approvals[id := approvals[id].(status := Withdrawn)];
        audit := audit + [ApprovalEvent(id, Some(Pending), Withdrawn)];
        ApprovalWrite(before, Contents(), id, approvals[id]);
        SilentEvent(start, before, Contents());
        rows := rows - {id};
      }
    }

    // -------------------------------------------------------------- operations

    /** The one mutation that occupies the project: one that is neither succeeded, failed nor cancelled. */
    method ActiveMutation(project: Id) returns (holder: Option<Id>)
      requires Valid()
      ensures holder.Some? ==>
                && HoldsProject(Contents(), holder.value, project)
                && forall other :: HoldsProject(Contents(), other, project) ==> other == holder.value
      ensures holder.None? ==> forall h :: !HoldsProject(Contents(), h, project)
      ensures forall h :: HoldsProject(Contents(), h, project) <==>
                && h in operations && operations[h].project == project && operations[h].mutation
                && operations[h].state !in {Succeeded, Failed, Cancelled}
    {
      hide HistoryHolds;
      hide ApprovalsSound;
      var active := set h | h in operations && operations[h].project == project && HoldsSlot(operations[h]);
      if active != {} {
        var h :| h in active;
        assert HoldsProject(Contents(), h, project);
        forall other | HoldsProject(Contents(), other, project) ensures other == h {
          assert ShareSlot(operations, other, h);
        }
        return Some(h);
      }
      assert forall h :: HoldsProject(Contents(), h, project) ==> h in active;
      return None;
    }

    method CreateOperation(id: Id, project: Id, session: Option<Id>, key: string, hash: string, mutation: bool)
      returns (r: CreateResult)
      requires Valid()
      modifies this
      ensures Valid()
      ensures match StoreModel.CreateOperation(old(Contents()), id, project, session, key, hash, mutation)
              case Existing(e) => r == Row(e, true) && Contents() == old(Contents())
              case Occupied(h) => r == ActiveConflict(h) && Contents() == old(Contents())
              case DuplicateId => r == DuplicateRow && Contents() == old(Contents())
              case Inserted(s) => r == Row(id, false) && Contents() == s
      ensures match r
              case Row(e, true) =>
                && HasKey(Contents(), e, project, session, key) && Contents() == old(Contents())
              case ActiveConflict(h) =>
                && mutation && h in operations && operations[h].project == project && operations[h].mutation
                && operations[h].state !in {Succeeded, Failed, Cancelled} && Contents() == old(Contents())
              case DuplicateRow => id in operations && Contents() == old(Contents())
              case Row(e, false) =>
                && e == id && id !in old(operations)
                && (forall x :: !HasKey(old(Contents()), x, project, session, key))
                && (mutation ==> forall x :: !HoldsProject(old(Contents()), x, project))
                && operations == old(operations)[
                     id := Operation(project, session, key, hash, mutation, Received, None, None)]
                && sessions == old(sessions) && approvals == old(approvals) && checkpoints == old(checkpoints)
    {
      hide HistoryHolds;
      hide ApprovalsSound;
      hide Trail;
      ghost var before := Contents();
      var found := set e | e in operations && operations[e].project == project
                        && operations[e].session == session && operations[e].key == key;
      if found != {} {
        var e :| e in found;
        assert HasKey(before, e, project, session, key);
        forall other | HasKey(before, other, project, session, key) ensures other == e {
          assert ShareKey(before.operations, other, e);
        }
        return Row(e, true);
      }
      assert forall e :: HasKey(before, e, project, session, key) ==> e in found;
      if mutation {
        var holder := ActiveMutation(project);
        if holder.Some? { return ActiveConflict(holder.value); }
      }
      if id in operations { return DuplicateRow; }
      InsertOperationConsistent(before, id, project, session, key, hash, mutation);
      operations := operations[id := Operation(project, session, key, hash, mutation, Received, None, None)];
      audit := audit + [OperationEvent(id, None, Received)];
      return Row(id, false);
    }

    method TransitionOperation(id: Id, to: OpState, expected: Option<OpState>,
                               result: Option<Payload>, failure: Option<Failure>)
      returns (error: Option<StoreError>)
      requires Valid()
      modifies this
      ensures Valid()
      ensures var o := StoreModel.TransitionOperation(old(Contents()), id, to, expected, result, failure);
              Contents() == Settle(old(Contents()), o) && (error.None? <==> o.Done?)
      ensures error.None? <==>
                && id in old(operations)
                && var was := old(operations)[id].state;
                (expected.Some? ==> was == expected.value) && (to == was || OperationEdge(was, to))
      ensures error.Some? ==> Contents() == old(Contents())
      ensures error.None? ==>
                && operations == old(operations)[id := operations[id]]
                && var was := old(operations)[id];
                operations[id] == was.(state := to, result := if result.Some? then result else was.result,
                                       error := if failure.Some? then failure else was.error)
      ensures sessions == old(sessions) && approvals == old(approvals) && checkpoints == old(checkpoints)
      ensures IdentitiesKept(old(audit), audit)
    {
      hide IdentitiesKept;
      KeptTransitive(audit, audit, audit);
      TransitionOperationConsistent(Contents(), id, to, expected, result, failure);
      if id !in operations { return Some(RowNotFound); }
      var current := operations[id];
      if expected.Some? && current.state != expected.value { return Some(InvalidTransition); }
      if to != current.state && !OperationEdge(current.state, to) { return Some(InvalidTransition); }
      operations := operations[id := current.(
        state := to,
        result := if result.Some? then result else current.result,
        error := if failure.Some? then failure else current.error)];
      if to != current.state {
        IdentitiesKeptBy(audit, OperationEvent(id, Some(current.state), to));
        audit := audit + [OperationEvent(id, Some(current.state), to)];
      }
      return None;
    }

    method RecordOperationAuthContext(id: Id, identity: Identity) returns (error: Option<StoreError>)
      requires Valid()
      modifies this
      ensures Valid()
      ensures Contents() == Settle(old(Contents()), RecordOperationAuth(old(Contents()), id, identity))
      ensures error.None? <==> id in old(operations)
    {
      if id !in operations { return Some(RowNotFound); }
      ghost var before := Contents();
      audit := audit + [OperationAuthEvent(id, identity)];
      SilentAppend(before, Contents(), OperationAuthEvent(id, identity));
      return None;
    }

    // -------------------------------------------------------------- approvals

    method CreateApproval(id: Id, tokenHash: Id, expiresAt: int) returns (error: Option<StoreError>)
      requires Valid()
      modifies this
      ensures Valid()
      ensures var o := StoreModel.CreateApproval(old(Contents()), id, tokenHash, expiresAt);
              Contents() == Settle(old(Contents()), o) && (error.None? <==> o.Done?)
      ensures error.None? <==>
                && id in old(operations) && id !in old(approvals)
                && forall other :: other in old(approvals) ==> old(approvals)[other].tokenHash != tokenHash
      ensures error.Some? ==> Contents() == old(Contents())
      ensures error.None? ==> approvals == old(approvals)[id := Approval(tokenHash, Pending, expiresAt, None)]
      ensures sessions == old(sessions) && operations == old(operations) && checkpoints == old(checkpoints)
    {
      hide Consistent;
      hide Trail;
      ApprovalStepsConsistent(Contents(), id, tokenHash, expiresAt);
      TakenMeans(approvals, tokenHash);
      var taken := set other | other in approvals && approvals[other].tokenHash == tokenHash;
      if id !in operations || id in approvals || taken != {} {
        return Some(IntegrityViolation);
      }
      approvals := approvals[id := Approval(tokenHash, Pending, expiresAt, None)];
      audit := audit + [ApprovalEvent(id, None, Pending)];
      return None;
    }

    /** The approval is consumed exactly when it is pending, the token matches and it has not
        expired. The expiry branch writes `expired` and then raises, and the rollback undoes it. */
    method ConsumeApproval(id: Id, tokenHash: Id, now: int) returns (error: Option<StoreError>)
      requires Valid()
      modifies this
      ensures Valid()
      ensures var o := StoreModel.ConsumeApproval(old(Contents()), id, tokenHash, now);
              Contents() == Settle(old(Contents()), o)
              && error == if o.Done? then None else Some(o.error)
      ensures if id !in old(approvals) || id !in old(operations) then error == Some(ApprovalNotFound)
              else
                var row := old(approvals)[id];
                if row.tokenHash != tokenHash then error == Some(ApprovalTokenMismatch)
                else
                  && (error == Some(ApprovalAlreadyUsed) <==> row.status == Consumed || row.status == Withdrawn)
                  && (error == Some(ApprovalExpired) <==>
                        row.status == Expired || (row.status == Pending && row.expiresAt <= now))
                  && (error == None <==> row.status == Pending && now < row.expiresAt)
      ensures error.Some? ==> Contents() == old(Contents())
      ensures error.None? ==>
                approvals == old(approvals)[id := old(approvals)[id].(status := Consumed, consumedAt := Some(now))]
      ensures sessions == old(sessions) && operations == old(operations) && checkpoints == old(checkpoints)
    {
      ApprovalStepsConsistent(Contents(), id, tokenHash, now);
      if id !in approvals || id !in operations { return Some(ApprovalNotFound); }
      var row := approvals[id];
      if row.tokenHash != tokenHash { return Some(ApprovalTokenMismatch); }
      if row.status != Pending {
        if row.status == Expired { return Some(ApprovalExpired); }
        return Some(ApprovalAlreadyUsed);
      }
      if row.expiresAt <= now {
        var savedApprovals, savedAudit := approvals, audit;
        approvals := approvals[id := row.(status := Expired)];
        audit := audit + [ApprovalEvent(id, Some(Pending), Expired)];
        approvals, audit := savedApprovals, savedAudit;
        return Some(ApprovalExpired);
      }
      approvals := approvals[id := row.(status := Consumed, consumedAt := Some(now))];
      audit := audit + [ApprovalEvent(id, Some(Pending), Consumed)];
      return None;
    }

    method CancelApproval(id: Id) returns (error: Option<StoreError>)
      requires Valid()
      modifies this
      ensures Valid()
      ensures var o := StoreModel.CancelApproval(old(Contents()), id);
              Contents() == Settle(old(Contents()), o) && (error.None? <==> o.Done?)
      ensures error.None? <==>
                id in old(approvals) && id in old(operations) && old(approvals)[id].status == Pending
      ensures error.Some? ==> Contents() == old(Contents())
      ensures error.None? ==> approvals == old(approvals)[id := old(approvals)[id].(status := Withdrawn)]
      ensures sessions == old(sessions) && operations == old(operations) && checkpoints == old(checkpoints)
    {
      ApprovalStepsConsistent(Contents(), id, "", 0);
      if id !in approvals || id !in operations || approvals[id].status != Pending {
        return Some(ApprovalNotFound);
      }
      approvals := approvals[id := approvals[id].(status := Withdrawn)];
      audit := audit + [ApprovalEvent(id, Some(Pending), Withdrawn)];
      return None;
    }

    // -------------------------------------------------------------- checkpoints

    method CreateCheckpoint(id: Id, row: Checkpoint) returns (error: Option<StoreError>)
      requires Valid()
      modifies this
      ensures Valid()
      ensures var o := StoreModel.CreateCheckpoint(old(Contents()), id, row);
              Contents() == Settle(old(Contents()), o) && (error.None? <==> o.Done?)
      ensures error.None? <==>
                id !in old(checkpoints) && (row.operation.Some? ==> row.operation.value in old(operations))
      ensures error.Some? ==> Contents() == old(Contents())
      ensures error.None? ==>
                checkpoints == old(checkpoints)[id := row.(after := None, diffHash := None, status := Recorded)]
      ensures sessions == old(sessions) && operations == old(operations) && approvals == old(approvals)
    {
      if id in checkpoints || (row.operation.Some? && row.operation.value !in operations) {
        return Some(IntegrityViolation);
      }
      ghost var before := Contents();
      checkpoints := checkpoints[id := row.(after := None, diffHash := None, status := Recorded)];
      audit := audit + [CheckpointEvent(id, None, Recorded)];
      SilentAppend(before, Contents(), CheckpointEvent(id, None, Recorded));
      return None;
    }

    method FinalizeCheckpoint(id: Id, after: Snapshot, diffHash: Digest) returns (error: Option<StoreError>)
      requires Valid()
      modifies this
      ensures Valid()
      ensures var o := StoreModel.FinalizeCheckpoint(old(Contents()), id, after, diffHash);
              Contents() == Settle(old(Contents()), o) && (error.None? <==> o.Done?)
      ensures error.None? <==> id in old(checkpoints)
      ensures error.Some? ==> Contents() == old(Contents())
      ensures error.None? ==>
                checkpoints == old(checkpoints)[
                  id := old(checkpoints)[id].(after := Some(after), diffHash := Some(diffHash))]
      ensures sessions == old(sessions) && operations == old(operations) && approvals == old(approvals)
    {
      if id !in checkpoints { return Some(RowNotFound); }
      ghost var before := Contents();
      var row := checkpoints[id];
      checkpoints := checkpoints[id := row.(after := Some(after), diffHash := Some(diffHash))];
      audit := audit + [CheckpointEvent(id, Some(row.status), row.status)];
      SilentAppend(before, Contents(), CheckpointEvent(id, Some(row.status), row.status));
      return None;
    }

    method MarkCheckpointRestored(id: Id) returns (error: Option<StoreError>)
      requires Valid()
      modifies this
      ensures Valid()
      ensures var o := StoreModel.MarkCheckpointRestored(old(Contents()), id);
              Contents() == Settle(old(Contents()), o) && (error.None? <==> o.Done?)
      ensures error.None? <==> id in old(checkpoints)
      ensures error.Some? ==> Contents() == old(Contents())
      ensures error.None? ==> checkpoints == old(checkpoints)[id := old(checkpoints)[id].(status := Restored)]
      ensures sessions == old(sessions) && operations == old(operations) && approvals == old(approvals)
    {
      if id !in checkpoints { return Some(RowNotFound); }
      ghost var before := Contents();
      var row := checkpoints[id];
      checkpoints := checkpoints[id := row.(status := Restored)];
      audit := audit + [CheckpointEvent(id, Some(row.status), Restored)];
      SilentAppend(before, Contents(), CheckpointEvent(id, Some(row.status), Restored));
      return None;
    }

    /** The read-only evidence query: a row that proves the session owns the tip, if there is one. */
    method FindSessionWipCheckpoint(project: Id, session: Id, branch: string, head: CommitId)
      returns (found: Option<Id>)
      ensures found.Some? ==> ProvesSessionWip(Contents(), found.value, project, session, branch, head)
      ensures found.Some? ==>
                && found.value in checkpoints
                && var row := checkpoints[found.value];
                && row.project == project && row.session == Some(session) && row.kind == Mutation && row.status == Recorded
                && row.after.Some? && row.diffHash.Some? && !row.after.value.dirty
                && row.before.branch == row.after.value.branch == branch != ""
                && row.before.head != row.after.value.head == head
                && row.operation.Some? && row.operation.value in operations
                && operations[row.operation.value].state == Succeeded && operations[row.operation.value].mutation
                && session in sessions && sessions[session].project == project && sessions[session].status == Active
      ensures found.None? ==> forall c :: !ProvesSessionWip(Contents(), c, project, session, branch, head)
    {
      var rows := checkpoints.Keys;
      while rows != {}
        invariant rows <= checkpoints.Keys
        invariant forall c :: c in checkpoints && c !in rows ==>
                    !ProvesSessionWip(Contents(), c, project, session, branch, head)
        decreases |rows|
      {
        var c :| c in rows;
        if ProvesSessionWip(Contents(), c, project, session, branch, head) {
          return Some(c);
        }
        rows := rows - {c};
      }
      return None;
    }
  }

  /** A restored checkpoint proves nothing any more: the evidence that is found, if any, is another row. */
  method RestoreThenFind(database: Database, c: Id, project: Id, session: Id, branch: string, head: CommitId)
    returns (found: Option<Id>)
    requires database.Valid() && c in database.checkpoints
    modifies database
    ensures found != Some(c)
    ensures found.None? ==>
              forall w :: w != c ==> !ProvesSessionWip(old(database.Contents()), w, project, session, branch, head)
    ensures found.Some? ==> ProvesSessionWip(old(database.Contents()), found.value, project, session, branch, head)
  {
    hide Consistent;
    var error := database.MarkCheckpointRestored(c);
    found := database.FindSessionWipCheckpoint(project, session, branch, head);
    forall w | w != c
      ensures ProvesSessionWip(database.Contents(), w, project, session, branch, head)
           <==> ProvesSessionWip(old(database.Contents()), w, project, session, branch, head)
    {
    }
  }
}
