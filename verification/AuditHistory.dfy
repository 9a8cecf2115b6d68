/** The audit log is the history of the tables: every transaction keeps the replay of the log equal
    to the recorded states, and the states of one operation form a path of the transition table. */
module AuditHistory {
  import opened Basics
  import opened StoreModel

  // ---------------------------------------------------------------- replay and trails

  lemma ReplayAppend(log: seq<Event>, e: Event)
    ensures Replay(log + [e])
         == if Replay(log).None? then None else Advance(Replay(log).value, e)
  {
    assert (log + [e])[..|log|] == log;
  }

  lemma TrailAppend(log: seq<Event>, e: Event, id: Id)
    ensures Trail(log + [e], id)
         == Trail(log, id) + if e.OperationEvent? && e.operation == id then [e.entered] else []
  {
    assert (log + [e])[..|log|] == log;
  }

  /** Every edge of OPERATION_TRANSITIONS goes to a strictly higher rank. */
  function Rank(st: OpState): nat {
    match st
    case Received => 0
    case Validated => 1
    case AwaitingApproval => 2
    case Dispatched => 3
    case Running => 4
    case Unknown => 5
    case Succeeded => 6
    case Failed => 6
    case Cancelled => 6
  }

  /** Starts at Received, ends at `last`, every step an edge of the transition table. */
  ghost predicate IsOperationPath(path: seq<OpState>, last: OpState) {
    && |path| > 0 && path[0] == Received && path[|path| - 1] == last
    && forall k :: 0 <= k < |path| - 1 ==> OperationEdge(path[k], path[k + 1])
  }

  /** An operation the log knows about walked a path from Received to its current state;
      an operation it does not know about has no events. */
  lemma {:induction false} TrailIsPath(log: seq<Event>, id: Id)
    requires Replay(log).Some?
    ensures id in Replay(log).value.operations ==>
              IsOperationPath(Trail(log, id), Replay(log).value.operations[id])
    ensures id !in Replay(log).value.operations ==> Trail(log, id) == []
  {
    if log != [] {
      TrailIsPath(log[..|log| - 1], id);
    }
  }

  lemma {:induction false} PathIsRanked(path: seq<OpState>, last: OpState, i: nat, j: nat)
    requires IsOperationPath(path, last) && i < j < |path|
    ensures Rank(path[i]) < Rank(path[j])
  {
    assert OperationEdge(path[j - 1], path[j - 1 + 1]);
    if i < j - 1 {
      PathIsRanked(path, last, i, j - 1);
    }
  }

  /** No operation enters the same state twice, and whatever it entered before its current state
      has a lower rank. */
  lemma EntersEachStateOnce(s: Store, id: Id)
    requires HistoryHolds(s)
    ensures forall i, j :: 0 <= i < j < |Trail(s.audit, id)| ==>
              Trail(s.audit, id)[i] != Trail(s.audit, id)[j]
    ensures forall st :: st in Trail(s.audit, id) ==>
              id in s.operations
              && (st == s.operations[id].state || Rank(st) < Rank(s.operations[id].state))
  {
    TrailIsPath(s.audit, id);
    var path := Trail(s.audit, id);
    if id in s.operations {
      var last := s.operations[id].state;
      forall i, j | 0 <= i < j < |path| ensures Rank(path[i]) < Rank(path[j]) {
        PathIsRanked(path, last, i, j);
      }
    }
  }

  lemma {:induction false} NoIdentityWithoutRow(log: seq<Event>, id: Id)
    requires Replay(log).Some? && id !in Replay(log).value.operations
    ensures IdentityOf(log, id) == None
  {
    if log != [] {
      NoIdentityWithoutRow(log[..|log| - 1], id);
    }
  }

  lemma NoIdentityYet(s: Store, id: Id)
    requires Consistent(s) && id !in s.operations
    ensures IdentityOf(s.audit, id) == None
  {
    NoIdentityWithoutRow(s.audit, id);
  }

  /** The transition tables read from their targets: how each state can be entered. */
  lemma EnteredFrom(from: OpState, to: OpState, was: SessionStatus, now: SessionStatus, a: ApprovalStatus, b: ApprovalStatus)
    ensures OperationEdge(from, to) <==>
              match to
              case Received => false
              case Validated => from == Received
              case AwaitingApproval => from == Validated
              case Dispatched => from == Validated || from == AwaitingApproval
              case Running => from == Dispatched
              case Succeeded => from == Running || from == Unknown
              case Failed => from != Succeeded && from != Failed && from != Cancelled
              case Cancelled => from == Received || from == Validated || from == AwaitingApproval || from == Running
              case Unknown => from == Dispatched || from == Running
    ensures SessionEdge(was, now) <==>
              match now
              case Created => false
              case Active => was == Created
              case Closing => was == Active
              case Closed => was == Created || was == Closing
              case Blocked => was != Closed && was != Blocked
    ensures ApprovalEdge(a, b) <==> a == Pending && b != Pending
  {
  }

  lemma IdentityAppend(log: seq<Event>, e: Event, id: Id)
    ensures IdentityOf(log + [e], id)
         == if IdentityOf(log, id).None? && e.OperationAuthEvent? && e.operation == id then Some(e.identity)
            else IdentityOf(log, id)
  {
    assert (log + [e])[..|log|] == log;
  }

  lemma SessionIdentityAppend(log: seq<Event>, e: Event, id: Id)
    ensures SessionIdentityOf(log + [e], id)
         == if SessionIdentityOf(log, id).None? && e.SessionAuthEvent? && e.session == id then Some(e.identity)
            else SessionIdentityOf(log, id)
  {
    assert (log + [e])[..|log|] == log;
  }

  predicate IsAuthOf(e: Event, id: Id) {
    e.OperationAuthEvent? && e.operation == id
  }

  /** The identity of an operation is the one recorded first in the log; without a record there is none. */
  lemma {:induction false} FirstIdentity(log: seq<Event>, id: Id)
    ensures IdentityOf(log, id).None? <==> forall k :: 0 <= k < |log| ==> !IsAuthOf(log[k], id)
    ensures forall k :: 0 <= k < |log| && IsAuthOf(log[k], id) && (forall i :: 0 <= i < k ==> !IsAuthOf(log[i], id)) ==>
              IdentityOf(log, id) == Some(log[k].identity)
  {
    if log != [] {
      var earlier := log[..|log| - 1];
      FirstIdentity(earlier, id);
      assert log == earlier + [log[|log| - 1]];
    }
  }

  predicate IsSessionAuthOf(e: Event, id: Id) {
    e.SessionAuthEvent? && e.session == id
  }

  /** So is that of a session. */
  lemma {:induction false} FirstSessionIdentity(log: seq<Event>, id: Id)
    ensures SessionIdentityOf(log, id).None? <==> forall k :: 0 <= k < |log| ==> !IsSessionAuthOf(log[k], id)
    ensures forall k :: 0 <= k < |log| && IsSessionAuthOf(log[k], id) && (forall i :: 0 <= i < k ==> !IsSessionAuthOf(log[i], id)) ==>
              SessionIdentityOf(log, id) == Some(log[k].identity)
  {
    if log != [] {
      var earlier := log[..|log| - 1];
      FirstSessionIdentity(earlier, id);
      assert log == earlier + [log[|log| - 1]];
    }
  }

  lemma IdentitiesKeptBy(log: seq<Event>, e: Event)
    requires !e.OperationAuthEvent? && !e.SessionAuthEvent?
    ensures IdentitiesKept(log, log + [e])
  {
    forall id ensures IdentityOf(log + [e], id) == IdentityOf(log, id)
                      && SessionIdentityOf(log + [e], id) == SessionIdentityOf(log, id)
    {
      IdentityAppend(log, e, id);
      SessionIdentityAppend(log, e, id);
    }
  }

  /** Sessions keep their identities through every event that is not their own. */
  lemma SessionsKeptBy(log: seq<Event>, e: Event)
    ensures !e.SessionAuthEvent? ==> SessionIdentitiesKept(log, log + [e])
    ensures SessionIdentitiesKept(log, log)
  {
    if !e.SessionAuthEvent? {
      forall x ensures SessionIdentityOf(log + [e], x) == SessionIdentityOf(log, x) {
        SessionIdentityAppend(log, e, x);
      }
    }
  }

  lemma SessionsKeptTransitive(a: seq<Event>, b: seq<Event>, c: seq<Event>)
    ensures SessionIdentitiesKept(a, a)
    ensures SessionIdentitiesKept(a, b) && SessionIdentitiesKept(b, c) ==> SessionIdentitiesKept(a, c)
    ensures IdentitiesKept(a, b) ==> SessionIdentitiesKept(a, b)
  {
  }

  lemma KeptTransitive(a: seq<Event>, b: seq<Event>, c: seq<Event>)
    ensures IdentitiesKept(a, a)
    ensures IdentitiesKept(a, b) && IdentitiesKept(b, c) ==> IdentitiesKept(a, c)
  {
  }

  lemma {:induction false} NoSessionIdentityWithoutRow(log: seq<Event>, id: Id)
    requires Replay(log).Some? && id !in Replay(log).value.sessions
    ensures SessionIdentityOf(log, id) == None
  {
    if log != [] {
      NoSessionIdentityWithoutRow(log[..|log| - 1], id);
    }
  }

  // ---------------------------------------------------------------- single row writes

  lemma AppendKeepsHistory(s: Store, t: Store, e: Event)
    requires HistoryHolds(s) && t.audit == s.audit + [e]
    requires Advance(StatusesOf(s), e) == Some(StatusesOf(t))
    ensures HistoryHolds(t)
  {
    ReplayAppend(s.audit, e);
  }

  /** The states after one operation row changed, and the event that says so. */
  lemma OperationWrite(s: Store, t: Store, id: Id, row: Operation)
    requires HistoryHolds(s)
    requires t == s.(operations := s.operations[id := row],
                     audit := s.audit + [OperationEvent(id, Lookup(StatusesOf(s).operations, id), row.state)])
    requires if id in s.operations then OperationEdge(s.operations[id].state, row.state)
             else row.state == Received
    ensures HistoryHolds(t)
    ensures forall other :: Trail(t.audit, other)
                         == Trail(s.audit, other) + if other == id then [row.state] else []
    ensures IdentitiesKept(s.audit, t.audit)
  {
    var e := OperationEvent(id, Lookup(StatusesOf(s).operations, id), row.state);
    assert StatusesOf(t).operations == StatusesOf(s).operations[id := row.state];
    assert StatusesOf(t) == StatusesOf(s).(operations := StatusesOf(s).operations[id := row.state]);
    IdentitiesKeptBy(s.audit, e);
    AppendKeepsHistory(s, t, e);
    forall other ensures Trail(t.audit, other)
                      == Trail(s.audit, other) + if other == id then [row.state] else [] {
      TrailAppend(s.audit, e, other);
    }
  }

  lemma SessionWrite(s: Store, t: Store, id: Id, row: Session)
    requires HistoryHolds(s)
    requires t == s.(sessions := s.sessions[id := row],
                     audit := s.audit + [SessionEvent(id, Lookup(StatusesOf(s).sessions, id), row.status)])
    requires if id in s.sessions then SessionEdge(s.sessions[id].status, row.status)
             else row.status == Created
    ensures HistoryHolds(t)
    ensures forall other :: Trail(t.audit, other) == Trail(s.audit, other)
    ensures IdentitiesKept(s.audit, t.audit)
  {
    var e := SessionEvent(id, Lookup(StatusesOf(s).sessions, id), row.status);
    assert StatusesOf(t).sessions == StatusesOf(s).sessions[id := row.status];
    assert StatusesOf(t) == StatusesOf(s).(sessions := StatusesOf(s).sessions[id := row.status]);
    IdentitiesKeptBy(s.audit, e);
    AppendKeepsHistory(s, t, e);
    forall other ensures Trail(t.audit, other) == Trail(s.audit, other) {
      TrailAppend(s.audit, e, other);
    }
  }

  lemma ApprovalWrite(s: Store, t: Store, id: Id, row: Approval)
    requires HistoryHolds(s)
    requires t == s.(approvals := s.approvals[id := row],
                     audit := s.audit + [ApprovalEvent(id, Lookup(StatusesOf(s).approvals, id), row.status)])
    requires if id in s.approvals then ApprovalEdge(s.approvals[id].status, row.status)
             else row.status == Pending
    ensures HistoryHolds(t)
    ensures forall other :: Trail(t.audit, other) == Trail(s.audit, other)
    ensures IdentitiesKept(s.audit, t.audit)
  {
    var e := ApprovalEvent(id, Lookup(StatusesOf(s).approvals, id), row.status);
    assert StatusesOf(t).approvals == StatusesOf(s).approvals[id := row.status];
    assert StatusesOf(t) == StatusesOf(s).(approvals := StatusesOf(s).approvals[id := row.status]);
    IdentitiesKeptBy(s.audit, e);
    AppendKeepsHistory(s, t, e);
    forall other ensures Trail(t.audit, other) == Trail(s.audit, other) {
      TrailAppend(s.audit, e, other);
    }
  }

  /** Events that move no row: identity records and checkpoint events. */
  lemma SilentAppend(s: Store, t: Store, e: Event)
    requires HistoryHolds(s) && StatusesOf(t) == StatusesOf(s) && t.audit == s.audit + [e]
    requires e.CheckpointEvent? || (e.SessionAuthEvent? && e.session in s.sessions)
             || (e.OperationAuthEvent? && e.operation in s.operations)
    ensures HistoryHolds(t)
    ensures forall other :: Trail(t.audit, other) == Trail(s.audit, other)
  {
    AppendKeepsHistory(s, t, e);
    forall other ensures Trail(t.audit, other) == Trail(s.audit, other) {
      TrailAppend(s.audit, e, other);
    }
  }

  // ---------------------------------------------------------------- every transaction

  lemma CreateSessionConsistent(s: Store, id: Id, project: Id, auth: Option<Identity>)
    requires Consistent(s)
    ensures Consistent(Settle(s, CreateSession(s, id, project, auth)))
    ensures forall other :: Trail(Settle(s, CreateSession(s, id, project, auth)).audit, other)
                         == Trail(s.audit, other)
  {
    if id !in s.sessions {
      var row := Session(project, Created, None);
      var s1 := s.(sessions := s.sessions[id := row], audit := s.audit + [SessionEvent(id, None, Created)]);
      SessionWrite(s, s1, id, row);
      var s2 := s1.(sessions := s1.sessions[id := row.(status := Active)],
                    audit := s1.audit + [SessionEvent(id, Some(Created), Active)]);
      SessionWrite(s1, s2, id, row.(status := Active));
      assert s2.sessions == s.sessions[id := Session(project, Active, None)];
      if auth.Some? {
        var s3 := s2.(audit := s2.audit + [SessionAuthEvent(id, auth.value)]);
        SilentAppend(s2, s3, SessionAuthEvent(id, auth.value));
        assert Settle(s, CreateSession(s, id, project, auth)) == s3;
      } else {
        assert Settle(s, CreateSession(s, id, project, auth)) == s2;
      }
    }
  }

  lemma TransitionSessionConsistent(s: Store, id: Id, to: SessionStatus, reason: Option<string>)
    requires Consistent(s)
    ensures Consistent(Settle(s, TransitionSession(s, id, to, reason)))
    ensures forall other :: Trail(Settle(s, TransitionSession(s, id, to, reason)).audit, other)
                         == Trail(s.audit, other)
  {
    var t := Settle(s, TransitionSession(s, id, to, reason));
    if id in s.sessions && t != s {
      if to != s.sessions[id].status {
        SessionWrite(s, t, id, s.sessions[id].(status := to, reason := reason));
      } else {
        assert StatusesOf(t) == StatusesOf(s);
      }
    }
  }

  /** Inserting a new row keeps the one-slot and one-key indexes, so the SQL insert cannot violate
      them; a missing session is covered although SQL treats nulls as distinct. */
  lemma InsertOperationConsistent(s: Store, id: Id, project: Id, session: Option<Id>, key: string,
                                  hash: string, mutation: bool)
    requires Consistent(s)
    requires CreateOperation(s, id, project, session, key, hash, mutation).Inserted?
    ensures Consistent(InsertOperation(s, id, project, session, key, hash, mutation))
    ensures forall other :: Trail(InsertOperation(s, id, project, session, key, hash, mutation).audit, other)
                         == Trail(s.audit, other) + if other == id then [Received] else []
  {
    var t := InsertOperation(s, id, project, session, key, hash, mutation);
    OperationWrite(s, t, id, t.operations[id]);
    forall a, b | ShareKey(t.operations, a, b) ensures a == b {
      assert a != b ==> ShareKey(s.operations, a, b) || HasKey(s, a, project, session, key)
                        || HasKey(s, b, project, session, key);
    }
    forall a, b | ShareSlot(t.operations, a, b) ensures a == b {
      assert a != b ==> ShareSlot(s.operations, a, b) || HoldsProject(s, a, project) || HoldsProject(s, b, project);
    }
  }

  lemma TransitionOperationConsistent(s: Store, id: Id, to: OpState, expected: Option<OpState>,
                                      result: Option<Payload>, error: Option<Failure>)
    requires Consistent(s)
    ensures var t := Settle(s, TransitionOperation(s, id, to, expected, result, error));
            && Consistent(t)
            && (forall other :: Trail(t.audit, other) == Trail(s.audit, other)
                  + if other == id && id in s.operations && t.operations[id].state != s.operations[id].state
                    then [to] else [])
  {
    hide HistoryHolds;
    hide Trail;
    hide SlotExclusive;
    hide KeysUnique;
    TransitionHistory(s, id, to, expected, result, error);
    TransitionIndexes(s, id, to, expected, result, error);
  }

  lemma TransitionHistory(s: Store, id: Id, to: OpState, expected: Option<OpState>,
                          result: Option<Payload>, error: Option<Failure>)
    requires HistoryHolds(s)
    ensures var t := Settle(s, TransitionOperation(s, id, to, expected, result, error));
            && HistoryHolds(t)
            && (forall other :: Trail(t.audit, other) == Trail(s.audit, other)
                  + if other == id && id in s.operations && t.operations[id].state != s.operations[id].state
                    then [to] else [])
  {
    hide Trail;
    var t := Settle(s, TransitionOperation(s, id, to, expected, result, error));
    if id in s.operations && t != s {
      if to != s.operations[id].state {
        OperationWrite(s, t, id, t.operations[id]);
      } else {
        assert StatusesOf(t) == StatusesOf(s);
      }
    }
  }

  lemma TransitionIndexes(s: Store, id: Id, to: OpState, expected: Option<OpState>,
                          result: Option<Payload>, error: Option<Failure>)
    requires SlotExclusive(s.operations) && KeysUnique(s.operations)
    ensures var t := Settle(s, TransitionOperation(s, id, to, expected, result, error));
            SlotExclusive(t.operations) && KeysUnique(t.operations)
  {
    hide SlotExclusive;
    hide KeysUnique;
    var t := Settle(s, TransitionOperation(s, id, to, expected, result, error));
    if id in s.operations && t != s { IndexesKept(s.operations, t.operations); }
  }

  /** Rows that keep their project, session and key, and take no slot, keep both indexes. */
  lemma IndexesKept(rows: map<Id, Operation>, updated: map<Id, Operation>)
    requires SlotExclusive(rows) && KeysUnique(rows) && updated.Keys == rows.Keys
    requires forall id :: id in rows ==>
      && updated[id].project == rows[id].project && updated[id].session == rows[id].session
      && updated[id].key == rows[id].key && (HoldsSlot(updated[id]) ==> HoldsSlot(rows[id]))
    ensures SlotExclusive(updated) && KeysUnique(updated)
  {
    forall a, b | ShareKey(updated, a, b) ensures a == b {
      assert ShareKey(rows, a, b);
    }
    forall a, b | ShareSlot(updated, a, b) ensures a == b {
      assert ShareSlot(rows, a, b);
    }
  }

  /** A project's slot is never taken by a transition, only by an insert. */
  lemma SlotOnlyByInsert(s: Store, id: Id, to: OpState, expected: Option<OpState>,
                         result: Option<Payload>, error: Option<Failure>)
    ensures var t := Settle(s, TransitionOperation(s, id, to, expected, result, error));
            forall o :: o in t.operations && HoldsSlot(t.operations[o]) ==>
              o in s.operations && HoldsSlot(s.operations[o])
  {
  }

  /** A legal write of one sound approval keeps everything. */
  lemma ApprovalRowConsistent(s: Store, t: Store, id: Id, row: Approval)
    requires Consistent(s) && id in s.operations
    requires t == s.(approvals := s.approvals[id := row],
                     audit := s.audit + [ApprovalEvent(id, Lookup(StatusesOf(s).approvals, id), row.status)])
    requires if id in s.approvals then ApprovalEdge(s.approvals[id].status, row.status)
             else row.status == Pending
    requires row.status != Expired
    requires row.status == Consumed ==> row.consumedAt.Some? && row.consumedAt.value < row.expiresAt
    ensures Consistent(t) && forall o :: Trail(t.audit, o) == Trail(s.audit, o)
  {
    hide Replay;
    hide Trail;
    hide IdentitiesKept;
    ApprovalWrite(s, t, id, row);
  }

  lemma ApprovalStepsConsistent(s: Store, id: Id, tokenHash: Id, time: int)
    requires Consistent(s)
    ensures Consistent(Settle(s, CreateApproval(s, id, tokenHash, time)))
    ensures Consistent(Settle(s, ConsumeApproval(s, id, tokenHash, time)))
    ensures Consistent(Settle(s, CancelApproval(s, id)))
    ensures forall o :: Trail(Settle(s, CreateApproval(s, id, tokenHash, time)).audit, o) == Trail(s.audit, o)
    ensures forall o :: Trail(Settle(s, ConsumeApproval(s, id, tokenHash, time)).audit, o) == Trail(s.audit, o)
    ensures forall o :: Trail(Settle(s, CancelApproval(s, id)).audit, o) == Trail(s.audit, o)
  {
    hide Consistent;
    hide Trail;
    var c := CreateApproval(s, id, tokenHash, time);
    if c.Done? { ApprovalRowConsistent(s, c.store, id, c.store.approvals[id]); }
    var u := ConsumeApproval(s, id, tokenHash, time);
    if u.Done? { ApprovalRowConsistent(s, u.store, id, u.store.approvals[id]); }
    var w := CancelApproval(s, id);
    if w.Done? { ApprovalRowConsistent(s, w.store, id, w.store.approvals[id]); }
  }

  lemma RecordAuthConsistent(s: Store, id: Id, identity: Identity)
    requires Consistent(s)
    ensures Consistent(Settle(s, RecordOperationAuth(s, id, identity)))
    ensures forall o :: Trail(Settle(s, RecordOperationAuth(s, id, identity)).audit, o) == Trail(s.audit, o)
  {
    var a := RecordOperationAuth(s, id, identity);
    if a.Done? { SilentAppend(s, a.store, OperationAuthEvent(id, identity)); }
  }

  lemma CreateCheckpointConsistent(s: Store, id: Id, row: Checkpoint)
    requires Consistent(s)
    ensures Consistent(Settle(s, CreateCheckpoint(s, id, row)))
    ensures forall o :: Trail(Settle(s, CreateCheckpoint(s, id, row)).audit, o) == Trail(s.audit, o)
  {
    var c := CreateCheckpoint(s, id, row);
    if c.Done? { SilentAppend(s, c.store, CheckpointEvent(id, None, Recorded)); }
  }

  lemma FinalizeCheckpointConsistent(s: Store, id: Id, after: Snapshot, diff: Digest)
    requires Consistent(s)
    ensures Consistent(Settle(s, FinalizeCheckpoint(s, id, after, diff)))
    ensures forall o :: Trail(Settle(s, FinalizeCheckpoint(s, id, after, diff)).audit, o) == Trail(s.audit, o)
  {
    var f := FinalizeCheckpoint(s, id, after, diff);
    if f.Done? { SilentAppend(s, f.store, f.store.audit[|s.audit|]); }
  }

  lemma MarkRestoredConsistent(s: Store, id: Id)
    requires Consistent(s)
    ensures Consistent(Settle(s, MarkCheckpointRestored(s, id)))
    ensures forall o :: Trail(Settle(s, MarkCheckpointRestored(s, id)).audit, o) == Trail(s.audit, o)
  {
    var m := MarkCheckpointRestored(s, id);
    if m.Done? { SilentAppend(s, m.store, m.store.audit[|s.audit|]); }
  }

  // ---------------------------------------------------------------- recovery

  lemma RecoveryConsistent(s: Store, t: Store)
    requires Consistent(s) && Recovered(s, t)
    ensures Consistent(t)
  {
    hide Recovered;
    hide SlotExclusive;
    hide KeysUnique;
    hide ApprovalsSound;
    RecoveredIndexes(s, t);
    RecoveredApprovals(s, t);
    RecoveredHistory(s, t);
  }

  lemma RecoveredIndexes(s: Store, t: Store)
    requires SlotExclusive(s.operations) && KeysUnique(s.operations) && Recovered(s, t)
    ensures SlotExclusive(t.operations) && KeysUnique(t.operations)
  {
    hide HistoryHolds;
    hide OneEventEach;
    hide SlotExclusive;
    hide KeysUnique;
    IndexesKept(s.operations, t.operations);
  }

  lemma RecoveredApprovals(s: Store, t: Store)
    requires ApprovalsSound(s) && Recovered(s, t)
    ensures ApprovalsSound(t)
  {
    hide HistoryHolds;
    hide OneEventEach;
    assert forall id :: id in t.approvals ==> id in s.approvals;
  }

  lemma RecoveredHistory(s: Store, t: Store)
    requires Recovered(s, t)
    ensures HistoryHolds(t)
  {
    hide HistoryHolds;
    hide OneEventEach;
  }

  /** What recovery does to the states: only edges of the transition tables; a mutation that was
      dispatched or running becomes unknown and no other operation does; no pending approval and no
      active or closing session is left; a slot is held exactly by unknown mutations. */
  lemma RecoveryOutcome(s: Store, t: Store)
    requires Recovered(s, t)
    ensures forall id :: id in s.operations && t.operations[id].state != s.operations[id].state ==>
              OperationEdge(s.operations[id].state, t.operations[id].state)
    ensures forall id :: id in s.sessions && t.sessions[id].status != s.sessions[id].status ==>
              SessionEdge(s.sessions[id].status, t.sessions[id].status)
    ensures forall id :: id in s.operations && InFlight(s.operations[id].state) ==>
              (t.operations[id].state == Unknown <==>
                 s.operations[id].mutation
                 && (s.operations[id].state == Dispatched || s.operations[id].state == Running))
              && (t.operations[id].state == Cancelled <==> s.operations[id].state == AwaitingApproval)
    ensures forall id :: id in t.approvals ==> t.approvals[id].status != Pending
    ensures forall id :: id in t.sessions ==> !Open(t.sessions[id])
    ensures forall id :: id in t.operations ==> !InFlight(t.operations[id].state)
    ensures forall id :: id in t.operations ==>
              (HoldsSlot(t.operations[id]) <==> t.operations[id].mutation && t.operations[id].state == Unknown)
  {
    assert forall id :: id in t.approvals ==> id in s.approvals;
    assert forall id :: id in t.sessions ==> id in s.sessions;
    assert forall id :: id in t.operations ==> id in s.operations;
  }

  /** Had the body of the operation begun? The body starts right after the row enters Running. */
  ghost predicate BodyBegan(s: Store, id: Id) {
    Running in Trail(s.audit, id)
  }

  /** A mutation whose body had begun can only become unknown. One whose body had not begun
      becomes failed or cancelled exactly when it had not been dispatched: between the two
      transactions of a dispatch recovery cannot tell, and answers unknown. */
  lemma RecoveryOfMutations(s: Store, t: Store, id: Id)
    requires Consistent(s) && Recovered(s, t)
    requires id in s.operations && s.operations[id].mutation && InFlight(s.operations[id].state)
    ensures BodyBegan(s, id) ==> t.operations[id].state == Unknown
    ensures !BodyBegan(s, id) ==>
              (t.operations[id].state == Failed || t.operations[id].state == Cancelled
               <==> s.operations[id].state != Dispatched)
  {
    EntersEachStateOnce(s, id);
    TrailIsPath(s.audit, id);
    var path := Trail(s.audit, id);
    assert path[|path| - 1] in path;
  }

  /** Recovery of a store with one open session and one mutation that was dispatched or running. */
  lemma RecoverOnly(s: Store, x: Id, id: Id) returns (t: Store)
    requires HistoryHolds(s) && s.sessions.Keys == {x} && Open(s.sessions[x])
    requires s.operations.Keys == {id} && s.approvals == map[] && s.operations[id].mutation
    requires s.operations[id].state == Dispatched || s.operations[id].state == Running
    ensures Recovered(s, t) && t.checkpoints == s.checkpoints
    ensures t.sessions.Keys == {x} && t.sessions[x] == RecoveredSession(s.sessions[x])
    ensures t.operations.Keys == {id} && t.operations[id] == RecoveredOperation(s.operations[id])
  {
    hide HistoryHolds;
    hide Trail;
    hide IdentitiesKept;
    var middle := s.(sessions := s.sessions[x := RecoveredSession(s.sessions[x])],
                     audit := s.audit + [SessionEvent(x, Some(s.sessions[x].status), Blocked)]);
    SessionWrite(s, middle, x, middle.sessions[x]);
    t := middle.(operations := s.operations[id := RecoveredOperation(s.operations[id])],
                 audit := middle.audit + [OperationEvent(id, Some(s.operations[id].state), Unknown)]);
    OperationWrite(middle, t, id, t.operations[id]);
    KeptTransitive(s.audit, middle.audit, t.audit);
  }

  /** Recovering again changes no table. */
  lemma RecoveryTablesStable(s: Store, t: Store, u: Store)
    requires Consistent(s) && Recovered(s, t) && Recovered(t, u)
    ensures u.sessions == t.sessions && u.operations == t.operations && u.approvals == t.approvals
    ensures u.checkpoints == t.checkpoints
  {
    hide Consistent;
    hide HistoryHolds;
    hide OneEventEach;
    RecoveryOutcome(s, t);
    assert u.sessions == t.sessions;
    assert u.operations == t.operations;
    assert u.approvals == t.approvals;
  }
}
