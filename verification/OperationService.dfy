/** `operation_service.py`: idempotent starts, and the transitions that move a stored operation. */
module OperationServices {
  import opened Basics
  import opened StoreModel
  import opened AuditHistory
  import opened DatabaseStore
  import opened ReplayKeys
  import L = Lifecycle
  import Runs = LifecycleRuns

  datatype Request = Request(
    operation: Id, project: Id, session: Option<Id>, mutation: bool, clientId: string,
    suppliedHash: string, canonicalHash: string, identity: Option<Identity>, digest: string)

  datatype StartOutcome =
    | Refused(code: string)
    | Replayed(id: Id, payload: Payload)
    | Started(id: Id)

  predicate WellFormed(q: Request) {
    && ValidRequestId(q.clientId)
    && ValidHash(q.suppliedHash) && Lower(q.suppliedHash) == q.canonicalHash
  }

  function NamespaceOf(q: Request): Option<string> {
    if q.identity.Some? then Some(Namespace(q.identity.value, q.digest)) else None
  }

  /** A row that may be answered to `q`: same project and session, the caller's request id, and the
      identity and canonical hash it was stored with are the caller's. */
  ghost predicate MayReplay(s: Store, id: Id, q: Request) {
    && id in s.operations
    && var row := s.operations[id];
    && row.project == q.project && row.session == q.session && Decode(row.key) == q.clientId
    && IdentityOf(s.audit, id) == q.identity && row.hash == q.canonicalHash
  }

  /** A row stored before namespaces existed, or by another OAuth namespace of the same caller. */
  predicate LegacyCandidate(s: Store, id: Id, q: Request) {
    && id in s.operations
    && s.operations[id].project == q.project && s.operations[id].session == q.session
    && Decode(s.operations[id].key) == q.clientId
    && (IdentityOf(s.audit, id).None? || IdentityOf(s.audit, id).value.OAuthIdentity?)
  }

  /** The row is stored under the caller's own key. */
  ghost predicate Addressed(s: Store, id: Id, q: Request) {
    && ValidRequestId(q.clientId) && Encode(NamespaceOf(q), q.clientId).Some?
    && HasKey(s, id, q.project, q.session, Encode(NamespaceOf(q), q.clientId).value)
  }

  /** The caller is the one the row was stored for, and asks for the same thing. */
  predicate SameCaller(s: Store, id: Id, q: Request)
    requires id in s.operations
  {
    IdentityOf(s.audit, id) == q.identity && s.operations[id].hash == q.canonicalHash
  }

  /** What a caller learns about a row stored under his key. */
  predicate Answers(r: StartOutcome, s: Store, id: Id, q: Request)
    requires id in s.operations
  {
    if !SameCaller(s, id, q) then r == Refused("IDEMPOTENCY_CONFLICT")
    else match Runs.StoredPayload(s.operations[id])
      case Some(payload) => r == Replayed(id, payload)
      case None => r == Refused("OPERATION_IN_PROGRESS")
  }

  /** Nothing stored answers to the request. */
  ghost predicate Unanswered(s: Store, q: Request) {
    && (forall id :: !Addressed(s, id, q))
    && (q.identity.Some? && q.identity.value.OAuthIdentity? ==> forall id :: !LegacyCandidate(s, id, q))
  }

  /** Nothing keeps a new operation from being stored. */
  ghost predicate Insertable(s: Store, q: Request) {
    q.operation !in s.operations && (q.mutation ==> forall h :: !HoldsProject(s, h, q.project))
  }

  /** What a retry is answered with: the stored result; else that the outcome is unknown; else the stored error. */
  lemma PayloadMeans(row: Operation, payload: Payload)
    requires Runs.StoredPayload(row) == Some(payload)
    ensures if row.result.Some? then payload == row.result.value
            else if row.state == Unknown then
              payload == Payload("unknown", "", Some(StoreModel.Failure("UNKNOWN_SIDE_EFFECT", None, "")))
            else
              && row.error.Some? && (row.state == Failed || row.state == Cancelled)
              && payload == Payload(if row.state == Failed then "failed" else "cancelled", "", row.error)
  {
  }

  lemma OneRowPerKey(s: Store, a: Id, b: Id, q: Request)
    requires Consistent(s) && Addressed(s, a, q) && Addressed(s, b, q)
    ensures a == b
  {
    hide HistoryHolds;
    hide ApprovalsSound;
    hide Encode;
    assert ShareKey(s.operations, a, b);
  }

  class OperationService {
    const database: Database

    constructor (database: Database)
      ensures this.database == database
    {
      this.database := database;
    }

    /** Starts an operation, or answers a retry. A row under the caller's key is always the one that
        answers; a stored payload is returned only for a row that MayReplay; a refusal and a replay change
        nothing. A new operation starts exactly when the request is well formed, nothing stored answers to
        it and nothing keeps it out; its row is validated and carries the caller's identity. */
    method Start(q: Request) returns (r: StartOutcome)
      requires database.Valid() && SeparatorFree(q.digest)
      modifies database
      ensures database.Valid()
      ensures !r.Started? ==> database.Contents() == old(database.Contents())
      ensures r.Replayed? ==>
                WellFormed(q) && MayReplay(database.Contents(), r.id, q)
                && Runs.StoredPayload(database.operations[r.id]) == Some(r.payload)
      ensures r.Replayed? ==>
                && r.id in database.operations
                && var row := database.operations[r.id];
                && row.project == q.project && row.session == q.session && Decode(row.key) == q.clientId
                && row.hash == q.canonicalHash && IdentityOf(database.audit, r.id) == q.identity
                && if row.result.Some? then r.payload == row.result.value
                   else if row.state == Unknown then
                     r.payload == Payload("unknown", "", Some(StoreModel.Failure("UNKNOWN_SIDE_EFFECT", None, "")))
                   else
                     && row.error.Some? && (row.state == Failed || row.state == Cancelled)
                     && r.payload == Payload(if row.state == Failed then "failed" else "cancelled", "", row.error)
      ensures r.Started? ==>
                && WellFormed(q) && r.id == q.operation && r.id !in old(database.operations)
                && Encode(NamespaceOf(q), q.clientId).Some?
                && database.operations == old(database.operations)[
                     r.id := Operation(q.project, q.session, Encode(NamespaceOf(q), q.clientId).value,
                                       q.canonicalHash, q.mutation, Validated, None, None)]
                && IdentityOf(database.audit, r.id) == q.identity
      ensures database.sessions == old(database.sessions) && database.approvals == old(database.approvals)
              && database.checkpoints == old(database.checkpoints)
      ensures WellFormed(q) ==>
                forall id :: Addressed(old(database.Contents()), id, q) ==> Answers(r, old(database.Contents()), id, q)
      ensures r.Started? <==>
                && WellFormed(q) && Encode(NamespaceOf(q), q.clientId).Some?
                && Unanswered(old(database.Contents()), q) && Insertable(old(database.Contents()), q)
      ensures r == Refused("IDEMPOTENCY_CONFLICT") ==>
                exists id :: id in database.operations && Decode(database.operations[id].key) == q.clientId
                  && (IdentityOf(database.audit, id) != q.identity || database.operations[id].hash != q.canonicalHash)
      ensures SessionIdentitiesKept(old(database.audit), database.audit)
    {
      hide SessionIdentityOf;
      hide SessionIdentitiesKept;
      hide Consistent;
      hide Trail;
      hide IdentityOf;
      hide Runs.StoredPayload;
      hide Encode;
      ghost var before := database.Contents();
      SessionsKeptTransitive(before.audit, before.audit, before.audit);
      if q.mutation && q.clientId == "" { return Refused("INVALID_REQUEST"); }
      if !ValidRequestId(q.clientId) { return Refused("INVALID_REQUEST"); }
      if !ValidHash(q.suppliedHash) { return Refused("INVALID_REQUEST"); }
      if Lower(q.suppliedHash) != q.canonicalHash { return Refused("INVALID_REQUEST"); }
      var encoded := Encode(NamespaceOf(q), q.clientId);
      if encoded.None? { return Refused("ValueError"); }
      DecodeInvertsEncode(NamespaceOf(q), q.clientId);
      var key := encoded.value;
      var stored := FindStored(q, key);
      if stored.Some? {
        r := AnswerRetry(stored.value, q);
        if r.Replayed? { PayloadMeans(database.operations[stored.value], r.payload); }
        forall id | Addressed(before, id, q) ensures Answers(r, before, id, q) {
          OneRowPerKey(before, id, stored.value, q);
        }
        return;
      }
      forall e ensures !HasKey(before, e, q.project, q.session, key) {
        assert !Addressed(before, e, q);
      }
      r := StartNew(q, key);
    }

    /** No row answers to the key yet. */
    method StartNew(q: Request, key: string) returns (r: StartOutcome)
      requires database.Valid()
      requires forall e :: !HasKey(database.Contents(), e, q.project, q.session, key)
      modifies database
      ensures database.Valid() && !r.Replayed? && r != StartOutcome.Refused("IDEMPOTENCY_CONFLICT")
      ensures r.Refused? ==> database.Contents() == old(database.Contents())
      ensures r.Started? <==> Insertable(old(database.Contents()), q)
      ensures database.sessions == old(database.sessions) && database.approvals == old(database.approvals)
              && database.checkpoints == old(database.checkpoints)
      ensures r.Started? ==>
                && r.id == q.operation && r.id !in old(database.operations)
                && database.operations == old(database.operations)[
                     r.id := Operation(q.project, q.session, key, q.canonicalHash, q.mutation, Validated, None, None)]
                && IdentityOf(database.audit, r.id) == q.identity
      ensures SessionIdentitiesKept(old(database.audit), database.audit)
    {
      hide Consistent;
      hide Trail;
      hide IdentityOf;
      hide SessionIdentityOf;
      hide SessionIdentitiesKept;
      ghost var before := database.Contents();
      SessionsKeptBy(before.audit, OperationEvent(q.operation, None, Received));
      var created := database.CreateOperation(q.operation, q.project, q.session, key, q.canonicalHash, q.mutation);
      match created
      case ActiveConflict(_) => return Refused("OPERATION_BLOCKED");
      case DuplicateRow => return Refused("IntegrityError");
      case Row(id, existing) =>
        NoIdentityYet(before, id);
        IdentityAppend(before.audit, OperationEvent(id, None, Received), id);
        ghost var log := database.audit;
        Register(id, q.identity);
        SessionsKeptTransitive(before.audit, log, database.audit);
        r := Started(id);
    }

    /** The row stored under the key; only when there is none, and only for an OAuth caller, a legacy row. */
    method FindStored(q: Request, key: string) returns (found: Option<Id>)
      requires ValidRequestId(q.clientId) && Encode(NamespaceOf(q), q.clientId) == Some(key)
      requires Decode(key) == q.clientId
      ensures found.Some? ==>
                && found.value in database.operations
                && (Addressed(database.Contents(), found.value, q)
                    || (q.identity.Some? && q.identity.value.OAuthIdentity?
                        && LegacyCandidate(database.Contents(), found.value, q)
                        && forall e :: !Addressed(database.Contents(), e, q)))
      ensures found.None? <==> Unanswered(database.Contents(), q)
    {
      hide IdentityOf;
      hide Encode;
      hide Decode;
      var rows := set e | e in database.operations && database.operations[e].project == q.project
                       && database.operations[e].session == q.session && database.operations[e].key == key;
      if rows != {} {
        var e :| e in rows;
        assert Addressed(database.Contents(), e, q);
        return Some(e);
      }
      assert forall e :: Addressed(database.Contents(), e, q) ==> e in rows;
      if q.identity.Some? && q.identity.value.OAuthIdentity? {
        var candidates := set e | e in database.operations && LegacyCandidate(database.Contents(), e, q);
        if candidates != {} {
          var e :| e in candidates;
          return Some(e);
        }
        assert forall e :: LegacyCandidate(database.Contents(), e, q) ==> e in candidates;
      }
      return None;
    }

    /** A retry gets the stored answer, or learns why it gets none. */
    method AnswerRetry(id: Id, q: Request) returns (r: StartOutcome)
      requires id in database.operations
      ensures Answers(r, database.Contents(), id, q)
    {
      var record := database.operations[id];
      if IdentityOf(database.audit, id) != q.identity { return Refused("IDEMPOTENCY_CONFLICT"); }
      if record.hash != q.canonicalHash { return Refused("IDEMPOTENCY_CONFLICT"); }
      if record.result.Some? { return Replayed(id, record.result.value); }
      if record.state == Unknown { return Replayed(id, Runs.UNKNOWN_PAYLOAD); }
      if (record.state == Failed || record.state == Cancelled) && record.error.Some? {
        return Replayed(id, Payload(if record.state == Failed then "failed" else "cancelled", "", record.error));
      }
      return Refused("OPERATION_IN_PROGRESS");
    }

    /** A new row gets its identity record, then becomes validated. */
    method Register(id: Id, identity: Option<Identity>)
      requires database.Valid() && id in database.operations && database.operations[id].state == Received
      requires IdentityOf(database.audit, id).None?
      modifies database
      ensures database.Valid()
      ensures database.operations
           == old(database.operations)[id := old(database.operations)[id].(state := Validated)]
      ensures database.sessions == old(database.sessions) && database.approvals == old(database.approvals)
              && database.checkpoints == old(database.checkpoints)
      ensures IdentityOf(database.audit, id) == identity
      ensures SessionIdentitiesKept(old(database.audit), database.audit)
    {
      hide Consistent;
      hide Trail;
      hide IdentityOf;
      hide SessionIdentityOf;
      hide SessionIdentitiesKept;
      hide IdentitiesKept;
      ghost var log := database.audit;
      SessionsKeptTransitive(log, log, log);
      if identity.Some? {
        var _ := database.RecordOperationAuthContext(id, identity.value);
        IdentityAppend(log, OperationAuthEvent(id, identity.value), id);
        SessionsKeptBy(log, OperationAuthEvent(id, identity.value));
      }
      log := database.audit;
      var _ := database.TransitionOperation(id, Validated, Some(Received), None, None);
      IdentityAppend(log, OperationEvent(id, Some(Received), Validated), id);
      SessionsKeptTransitive(log, database.audit, database.audit);
      SessionsKeptTransitive(old(database.audit), log, database.audit);
    }

    /** Two transactions; the second starts from what the first left. */
    method Dispatch(id: Id, from: OpState) returns (error: Option<StoreError>)
      requires database.Valid() && from != Dispatched
      modifies database
      ensures database.Valid()
      ensures error.None? <==>
                id in old(database.operations) && old(database.operations)[id].state == from
                && OperationEdge(from, Dispatched)
      ensures error.None? ==>
                database.operations
                == old(database.operations)[id := old(database.operations)[id].(state := Running)]
      ensures database.sessions == old(database.sessions) && database.approvals == old(database.approvals)
              && database.checkpoints == old(database.checkpoints)
      ensures error.Some? ==> database.Contents() == old(database.Contents())
      ensures IdentitiesKept(old(database.audit), database.audit)
    {
      hide Consistent;
      hide Trail;
      hide IdentityOf;
      hide IdentitiesKept;
      error := database.TransitionOperation(id, Dispatched, Some(from), None, None);
      if error.Some? { return; }
      ghost var log := database.audit;
      error := database.TransitionOperation(id, Running, Some(Dispatched), None, None);
      KeptTransitive(old(database.audit), log, database.audit);
    }

    /** Parks a validated operation; the notice is stored as it is, but without its plaintext token. */
    method AwaitApproval(id: Id, notice: StoreModel.Failure) returns (error: Option<StoreError>)
      requires database.Valid()
      modifies database
      ensures database.Valid()
      ensures var o := TransitionOperation(old(database.Contents()), id, AwaitingApproval, Some(Validated),
                                           None, Some(L.WithoutToken(notice)));
              database.Contents() == Settle(old(database.Contents()), o) && (error.None? <==> o.Done?)
      ensures error.None? <==> id in old(database.operations) && old(database.operations)[id].state == Validated
      ensures error.Some? ==> database.Contents() == old(database.Contents())
      ensures error.None? ==>
                && database.operations == old(database.operations)[id := database.operations[id]]
                && var was, now := old(database.operations)[id], database.operations[id];
                && now == was.(state := AwaitingApproval, error := now.error)
                && now.error.Some? && FailureKept(now.error.value, notice)
    {
      hide Consistent;
      hide Trail;
      hide IdentitiesKept;
      var stored := notice.(approvalToken := None);
      error := database.TransitionOperation(id, AwaitingApproval, Some(Validated), None, Some(stored));
    }

    /** Ends an operation: its result is the caller's payload, and its error the payload's error, both without a
        plaintext token. */
    method Finish(id: Id, to: OpState, payload: Payload) returns (error: Option<StoreError>)
      requires database.Valid()
      modifies database
      ensures database.Valid()
      ensures var o := L.FinishOperation(old(database.Contents()), id, to, payload);
              database.Contents() == Settle(old(database.Contents()), o) && (error.None? <==> o.Done?)
      ensures error.None? <==>
                && id in old(database.operations)
                && (to == old(database.operations)[id].state || OperationEdge(old(database.operations)[id].state, to))
      ensures error.Some? ==> database.Contents() == old(database.Contents())
      ensures error.None? ==>
                && database.operations == old(database.operations)[id := database.operations[id]]
                && var was, now := old(database.operations)[id], database.operations[id];
                && now == was.(state := to, result := now.result, error := now.error)
                && now.result.Some? && PayloadKept(now.result.value, payload)
                && now.error == if payload.error.Some? then now.result.value.error else was.error
      ensures IdentitiesKept(old(database.audit), database.audit)
    {
      hide Consistent;
      hide Trail;
      hide IdentitiesKept;
      var safe := if payload.error.Some? then Some(payload.error.value.(approvalToken := None)) else None;
      error := database.TransitionOperation(id, to, None, Some(payload.(error := safe)), safe);
    }
  }

  /** An operation ends, and its caller asks again: he is answered with the payload it ended with. */
  method FinishThenRetry(service: OperationService, id: Id, to: OpState, payload: Payload, q: Request)
    returns (r: StartOutcome)
    requires service.database.Valid() && SeparatorFree(q.digest) && WellFormed(q)
    requires Addressed(service.database.Contents(), id, q) && SameCaller(service.database.Contents(), id, q)
    requires OperationEdge(service.database.operations[id].state, to)
    modifies service.database
    ensures r.Replayed? && r.id == id
    ensures r.payload.status == payload.status && r.payload.body == payload.body
    ensures if payload.error.None? then r.payload.error.None?
            else
              && r.payload.error.Some? && r.payload.error.value.code == payload.error.value.code
              && r.payload.error.value.details == payload.error.value.details
              && r.payload.error.value.approvalToken.None?
    ensures id in service.database.operations && service.database.operations[id].state == to
  {
    hide Consistent;
    hide IdentityOf;
    hide SessionIdentityOf;
    hide Encode;
    hide Unanswered;
    hide Insertable;
    hide MayReplay;
    var error := service.Finish(id, to, payload);
    assert Addressed(service.database.Contents(), id, q) && SameCaller(service.database.Contents(), id, q);
    r := service.Start(q);
  }

  /** The service starts again, and the caller of an operation that was in flight asks again: he learns how
      recovery settled it. */
  method RecoverThenRetry(service: OperationService, id: Id, q: Request) returns (r: StartOutcome)
    requires service.database.Valid() && SeparatorFree(q.digest) && WellFormed(q)
    requires Addressed(service.database.Contents(), id, q) && SameCaller(service.database.Contents(), id, q)
    requires !Runs.Terminal(service.database.operations[id].state) && service.database.operations[id].state != Unknown
    modifies service.database
    ensures r.Replayed? && r.id == id
    ensures var was := old(service.database.operations)[id];
            if was.result.Some? then r.payload == was.result.value
            else
              && r.payload.body == "" && r.payload.error.Some? && r.payload.error.value.approvalToken.None?
              && var code := r.payload.error.value.code;
              if was.mutation && (was.state.Dispatched? || was.state.Running?) then
                r.payload.status == "unknown" && code == "UNKNOWN_SIDE_EFFECT"
              else
                code == "BRIDGE_RESTARTED"
                && r.payload.status == if was.state.AwaitingApproval? then "cancelled" else "failed"
  {
    hide Consistent;
    hide Recovered;
    hide Quiet;
    hide ReportOf;
    hide IdentityOf;
    hide SessionIdentityOf;
    hide Encode;
    hide Unanswered;
    hide Insertable;
    hide MayReplay;
    var report := service.database.RecoverAfterRestart();
    assert Addressed(service.database.Contents(), id, q) && SameCaller(service.database.Contents(), id, q);
    r := service.Start(q);
  }

  /** The same caller gets the stored payload, which holds no token; everybody else is refused. */
  predicate SettledAnswer(r: StartOutcome, s: Store, id: Id, q: Request)
    requires id in s.operations
  {
    if SameCaller(s, id, q)
    then r.Replayed? && r.id == id && (r.payload.error.Some? ==> r.payload.error.value.approvalToken.None?)
    else r == Refused("IDEMPOTENCY_CONFLICT")
  }

  lemma AnswersAgree(first: StartOutcome, second: StartOutcome, steps: seq<L.Step>, more: seq<L.Step>,
                     s: Store, t: Store, id: Id, q: Request)
    requires s == L.Run(L.INITIAL, steps).store && t == L.Run(L.INITIAL, steps + more).store
    requires Addressed(s, id, q) && Runs.Terminal(s.operations[id].state) && Answers(first, s, id, q)
    requires Addressed(t, id, q) ==> Answers(second, t, id, q)
    ensures second == first && SettledAnswer(first, s, id, q)
  {
    hide IdentityOf;
    hide Encode;
    hide L.Run;
    hide Runs.StoredPayload;
    Runs.TerminalRowsFrozen(steps, more, id);
    Runs.IdentitiesFixed(steps, more, id);
    Runs.ReplayIsStable(steps, more, id);
  }

  /** Two retries of one request, with any part of any run of the system between them: once the row under
      the caller's key is settled, both are answered with the same stored payload, free of tokens. */
  method RetryTwice(now: OperationService, later: OperationService, ghost steps: seq<L.Step>, ghost more: seq<L.Step>,
                    q: Request)
    returns (first: StartOutcome, second: StartOutcome)
    requires now.database != later.database && now.database.Valid() && later.database.Valid()
    requires now.database.Contents() == L.Run(L.INITIAL, steps).store
    requires later.database.Contents() == L.Run(L.INITIAL, steps + more).store
    requires WellFormed(q) && SeparatorFree(q.digest)
    modifies now.database, later.database
    ensures forall id :: Addressed(old(now.database.Contents()), id, q)
                         && Runs.Terminal(old(now.database.operations)[id].state) ==>
              second == first && SettledAnswer(first, old(now.database.Contents()), id, q)
  {
    hide IdentityOf;
    hide Encode;
    hide L.Run;
    hide Answers;
    hide Unanswered;
    hide Insertable;
    hide MayReplay;
    hide SettledAnswer;
    hide Consistent;
    ghost var s, t := now.database.Contents(), later.database.Contents();
    first := now.Start(q);
    second := later.Start(q);
    forall id | Addressed(s, id, q) && Runs.Terminal(s.operations[id].state)
      ensures second == first && SettledAnswer(first, s, id, q)
    {
      AnswersAgree(first, second, steps, more, s, t, id, q);
    }
  }
}
