/** `session_service.py` and `approval_service.py`: who may use a session, and how a one-time approval
    token is presented. */
module AccessServices {
  import opened Basics
  import opened StoreModel
  import opened AuditHistory
  import opened DatabaseStore

  /** The session is active, in this project, and was opened by the same security identity. */
  predicate MayUse(s: Store, project: Id, session: Id, principal: Option<Identity>) {
    && session in s.sessions
    && s.sessions[session].project == project && s.sessions[session].status == Active
    && SessionIdentityOf(s.audit, session) == principal
  }

  predicate ContextsMatch(log: seq<Event>, a: Id, b: Id) {
    SessionIdentityOf(log, a) == SessionIdentityOf(log, b)
  }

  class SessionService {
    const database: Database

    constructor (database: Database)
      ensures this.database == database
    {
      this.database := database;
    }

    /** Opens a session under the caller's identity. */
    method Create(id: Id, project: Id, principal: Option<Identity>) returns (error: Option<StoreError>)
      requires database.Valid()
      modifies database
      ensures database.Valid()
      ensures error.None? <==> id !in old(database.sessions)
      ensures error.None? ==>
                && database.sessions == old(database.sessions)[id := Session(project, Active, None)]
                && SessionIdentityOf(database.audit, id) == principal
                && MayUse(database.Contents(), project, id, principal)
    {
      hide Consistent;
      hide SessionIdentityOf;
      ghost var before := database.Contents();
      error := database.CreateSession(id, project, principal);
      if error.None? { NewSessionIdentity(before, database.Contents(), id, project, principal); }
    }

    /** None when the caller may use the session; otherwise the source's error code. */
    method RequireActive(project: Id, session: Id, principal: Option<Identity>) returns (code: Option<string>)
      ensures code.None? <==> session != "" && MayUse(database.Contents(), project, session, principal)
      ensures code == Some("SESSION_REQUIRED") <==> session == ""
      ensures code.None? <==>
                && session != "" && session in database.sessions
                && database.sessions[session].project == project && database.sessions[session].status == Active
                && SessionIdentityOf(database.audit, session) == principal
      ensures code.Some? ==> code == Some("SESSION_REQUIRED") || code == Some("SESSION_NOT_FOUND")
    {
      if session == "" { return Some("SESSION_REQUIRED"); }
      if session !in database.sessions || database.sessions[session].project != project {
        return Some("SESSION_NOT_FOUND");
      }
      if database.sessions[session].status != Active { return Some("SESSION_NOT_FOUND"); }
      if !CurrentContextMatches(session, principal) { return Some("SESSION_NOT_FOUND"); }
      return None;
    }

    function CurrentContextMatches(session: Id, principal: Option<Identity>): (b: bool)
      reads database
      ensures b <==> SessionIdentityOf(database.audit, session) == principal
    {
      var stored := SessionIdentityOf(database.audit, session);
      if stored.None? then principal.None?
      else if principal.None? then false
      else stored.value == principal.value
    }

    /** Two sessions have the same security identity, or neither has one. */
    method AuthContextsMatch(first: Id, second: Id) returns (matches: bool)
      ensures matches <==> ContextsMatch(database.audit, first, second)
      ensures matches <==> SessionIdentityOf(database.audit, first) == SessionIdentityOf(database.audit, second)
    {
      var a, b := SessionIdentityOf(database.audit, first), SessionIdentityOf(database.audit, second);
      if a.None? || b.None? { return a.None? && b.None?; }
      return a.value == b.value;
    }
  }

  lemma NewSessionIdentity(s: Store, t: Store, id: Id, project: Id, principal: Option<Identity>)
    requires Consistent(s) && id !in s.sessions
    requires t == Settle(s, CreateSession(s, id, project, principal))
    ensures SessionIdentityOf(t.audit, id) == principal
  {
    hide SessionIdentityOf;
    var first, second := SessionEvent(id, None, Created), SessionEvent(id, Some(Created), Active);
    NoSessionIdentityWithoutRow(s.audit, id);
    SessionIdentityAppend(s.audit, first, id);
    SessionIdentityAppend(s.audit + [first], second, id);
    if principal.Some? {
      SessionIdentityAppend(s.audit + [first] + [second], SessionAuthEvent(id, principal.value), id);
    } else {
      assert t.audit == s.audit + [first] + [second];
    }
  }

  /** The source's error codes for a refused token. */
  function ApprovalCode(e: StoreError): string {
    match e
    case ApprovalExpired => "APPROVAL_EXPIRED"
    case ApprovalAlreadyUsed => "APPROVAL_ALREADY_USED"
    case _ => "APPROVAL_INVALID"
  }

  class ApprovalService {
    const database: Database
    const ttl: nat
    /** The token digest. */
    const digest: string -> string

    constructor (database: Database, ttl: nat, digest: string -> string)
      ensures this.database == database && this.ttl == ttl && this.digest == digest
    {
      this.database, this.ttl, this.digest := database, ttl, digest;
    }

    /** Stores only the digest of the new token. */
    method Issue(operation: Id, token: string, now: int) returns (error: Option<StoreError>)
      requires database.Valid()
      modifies database
      ensures database.Valid()
      ensures var o := StoreModel.CreateApproval(old(database.Contents()), operation, digest(token), now + ttl);
              database.Contents() == Settle(old(database.Contents()), o) && (error.None? <==> o.Done?)
      ensures database.sessions == old(database.sessions) && database.operations == old(database.operations)
              && database.checkpoints == old(database.checkpoints)
      ensures error.None? ==> operation in database.operations
      ensures error.None? ==>
                database.approvals
                == old(database.approvals)[operation := Approval(digest(token), Pending, now + ttl, None)]
    {
      error := database.CreateApproval(operation, digest(token), now + ttl);
    }

    /** Accepts a token exactly when it has an admissible length, its digest is the stored one, the
        approval is pending and not expired; a refusal changes nothing. */
    method Consume(operation: Id, token: string, now: int) returns (code: Option<string>)
      requires database.Valid()
      modifies database
      ensures database.Valid()
      ensures code.None? <==>
                && 1 <= |token| <= 256
                && operation in old(database.approvals) && operation in old(database.operations)
                && var a := old(database.approvals)[operation];
                a.tokenHash == digest(token) && a.status == Pending && now < a.expiresAt
      ensures code.None? ==>
                database.approvals == old(database.approvals)[operation :=
                  old(database.approvals)[operation].(status := Consumed, consumedAt := Some(now))]
      ensures code.Some? ==> database.Contents() == old(database.Contents())
      ensures database.sessions == old(database.sessions) && database.operations == old(database.operations)
              && database.checkpoints == old(database.checkpoints)
      ensures var known := operation in old(database.approvals) && operation in old(database.operations)
                           && 1 <= |token| <= 256 && old(database.approvals)[operation].tokenHash == digest(token);
              && (code == Some("APPROVAL_EXPIRED") <==>
                    known && var a := old(database.approvals)[operation];
                             a.status == Expired || (a.status == Pending && a.expiresAt <= now))
              && (code == Some("APPROVAL_ALREADY_USED") <==>
                    known && var a := old(database.approvals)[operation]; a.status == Consumed || a.status == Withdrawn)
              && (code == Some("APPROVAL_INVALID") <==> !known)
    {
      hide Consistent;
      if |token| == 0 || |token| > 256 { return Some("APPROVAL_INVALID"); }
      var error := database.ConsumeApproval(operation, digest(token), now);
      return if error.None? then None else Some(ApprovalCode(error.value));
    }

    method Cancel(operation: Id) returns (code: Option<string>)
      requires database.Valid()
      modifies database
      ensures database.Valid()
      ensures var o := StoreModel.CancelApproval(old(database.Contents()), operation);
              database.Contents() == Settle(old(database.Contents()), o)
              && (code == if o.Done? then None else Some("OPERATION_NOT_CANCELABLE"))
      ensures code.None? <==>
                && operation in old(database.approvals) && operation in old(database.operations)
                && old(database.approvals)[operation].status == Pending
      ensures code.None? ==>
                database.approvals == old(database.approvals)[operation := old(database.approvals)[operation].(status := Withdrawn)]
      ensures code.Some? ==> database.Contents() == old(database.Contents())
      ensures database.sessions == old(database.sessions) && database.operations == old(database.operations)
              && database.checkpoints == old(database.checkpoints)
    {
      var error := database.CancelApproval(operation);
      return if error.None? then None else Some("OPERATION_NOT_CANCELABLE");
    }
  }

  /** A token is worth exactly one acceptance, to whoever presents it within its time: the second attempt finds
      it used. */
  method IssueThenConsume(service: ApprovalService, operation: Id, token: string, now: int, later: int, again: int)
    returns (issued: Option<StoreError>, first: Option<string>, second: Option<string>)
    requires service.database.Valid() && 1 <= |token| <= 256
    modifies service.database
    ensures issued.None? ==>
              && (first == if later < now + service.ttl then None else Some("APPROVAL_EXPIRED"))
              && (first.None? ==> second == Some("APPROVAL_ALREADY_USED"))
  {
    hide Consistent;
    issued := service.Issue(operation, token, now);
    first := service.Consume(operation, token, later);
    second := service.Consume(operation, token, again);
  }
}
