/** `_execute` of `mcp_server.py` around the file mutations: the request becomes an operation, the
    operation runs its body, and what the body came to is stored and answered. */
module Execution {
  import opened Basics
  import opened Repository
  import opened Footers
  import opened Workspaces
  import opened GitGuards
  import opened CheckpointServices
  import opened MutationModel
  import opened MutationServices
  import opened OperationServices
  import opened AccessServices
  import opened CommitCount
  import opened PathPolicy
  import opened ReplayKeys
  import L = Lifecycle
  import S = StoreModel

  /** The file a request changes, and how. */
  datatype Change =
    | Rewrites(path: Path, edit: Edit, disk: Disk)
    | Moves(source: Path, destination: Path)
    | Deletes(path: Path)

  function CodeOf(e: ErrorCode): string {
    match e
    case Conflict => "CONFLICT"
    case GitRefused => "CONFLICT"
    case WorkspaceDirty => "WORKSPACE_DIRTY"
    case FileNotFound => "FILE_NOT_FOUND"
    case UnknownSideEffect => "UNKNOWN_SIDE_EFFECT"
    case InvalidRequest => "INVALID_REQUEST"
    case SensitivePath => "SENSITIVE_PATH"
    case CheckpointInvalid => "CHECKPOINT_INVALID"
    case CheckpointConflict => "CHECKPOINT_CONFLICT"
    case CheckpointNotFound => "CHECKPOINT_NOT_FOUND"
    case BranchNotAllowed => "BRANCH_NOT_ALLOWED"
    case SessionRequired => "SESSION_REQUIRED"
    case SessionNotFound => "SESSION_NOT_FOUND"
    case BackendUnavailable => "BACKEND_UNAVAILABLE"
    case StoreFailure => "BACKEND_UNAVAILABLE"
  }

  /** The state in which an operation ends with the result of its body. */
  function StateOf(r: Result<S.Checkpoint, ErrorCode>): S.OpState {
    if r.Ok? then S.Succeeded else if r.error == UnknownSideEffect then S.Unknown else S.Failed
  }

  /** What Git or the store could not do has failed; what the Bridge itself refuses is rejected. */
  function StatusOf(r: Result<S.Checkpoint, ErrorCode>): string {
    if r.Ok? then "succeeded"
    else match r.error
      case UnknownSideEffect => "unknown"
      case BackendUnavailable => "failed"
      case StoreFailure => "failed"
      case GitRefused => "failed"
      case _ => "rejected"
  }

  /** What the caller is told; a success carries the summary of the recorded checkpoint. */
  function PayloadOf(r: Result<S.Checkpoint, ErrorCode>, summary: S.Checkpoint -> string): S.Payload {
    if r.Ok? then S.Payload.Payload(StatusOf(r), summary(r.value), None)
    else S.Payload.Payload(StatusOf(r), "", Some(S.Failure.Failure(CodeOf(r.error), None, "")))
  }

  /** How a body's result shows: a recorded checkpoint as a success with its summary; an unknown side effect as
      unknown; every other error as a failure under its own code. */
  ghost predicate Tells(payload: S.Payload, state: S.OpState, body: Result<S.Checkpoint, ErrorCode>,
                        summary: S.Checkpoint -> string)
  {
    match body
    case Ok(row) => state == S.Succeeded && payload == S.Payload.Payload("succeeded", summary(row), None)
    case Err(e) =>
      && state == (if e == UnknownSideEffect then S.Unknown else S.Failed)
      && payload.body == "" && payload.error == Some(S.Failure.Failure(CodeOf(e), None, ""))
      && payload.status == (if e == UnknownSideEffect then "unknown"
                            else if e == BackendUnavailable || e == StoreFailure || e == GitRefused then "failed"
                            else "rejected")
  }

  // ---------------------------------------------------------------- what a request is told

  function PathsOf(change: Change): seq<Path> {
    match change
    case Rewrites(path, _, _) => [path]
    case Moves(source, destination) => [source, destination]
    case Deletes(path) => [path]
  }

  predicate AnySensitive(change: Change) {
    exists p :: p in PathsOf(change) && IsSensitive(p)
  }

  predicate HasLength(description: string) {
    1 <= |description| <= 500
  }

  /** The file to change is not there. */
  predicate Missing(change: Change, work: Tree) {
    match change
    case Rewrites(path, edit, _) => !edit.NewFile? && path !in work
    case Moves(source, destination) => source != destination && source !in work
    case Deletes(path) => path !in work
  }

  predicate SamePath(change: Change) {
    change.Moves? && change.source == change.destination
  }

  /** The files are where they must be. */
  predicate Fits(change: Change, work: Tree) {
    match change
    case Rewrites(path, edit, _) => TargetFits(edit, path, work)
    case Moves(source, destination) =>
      source != destination && source in work && destination !in work && !IsDirectory(work, destination)
    case Deletes(path) => path in work
  }

  /** What they hold allows the change. */
  ghost predicate Suitable(change: Change, r: Repo) {
    match change
    case Rewrites(path, edit, _) => Acceptable(edit, Lookup(r.work, path))
    case Moves(source, _) => source in HeadTree(r)
    case Deletes(path) => path in HeadTree(r)
  }

  predicate DiskWorks(change: Change) {
    change.Rewrites? ==> change.disk == Disk(true, true)
  }

  /** The result of a change, as far as it is settled before anything is written, and undisturbed. */
  ghost predicate ChangeAnswered(r: Result<S.Checkpoint, ErrorCode>, s: S.Store, was: Repo, undisturbed: bool,
                                 allowed: string -> bool, session: Id, operation: Id, c: Id, change: Change,
                                 description: string)
  {
    if !HasLength(description) then r == Err(InvalidRequest)
    else if AnySensitive(change) then r == Err(SensitivePath)
    else if Missing(change, was.work) then r == Err(FileNotFound)
    else if SamePath(change) then r == Err(InvalidRequest)
    else if !Fits(change, was.work) then r == Err(Conflict)
    else undisturbed ==>
      if HeadOf(was).None? then r == Err(BackendUnavailable)
      else if !allowed(BranchName(was)) then r == Err(BranchNotAllowed)
      else if ChangedPaths(was) != {} then r == Err(WorkspaceDirty)
      else if c in s.checkpoints || operation !in s.operations then r == Err(StoreFailure)
      else if !Suitable(change, was) then r == Err(Conflict)
      else (&& ValidDescription(description) && ValidRequestId(session) && DiskWorks(change)
            && ValidBranch(BranchName(was))) ==> r.Ok?
  }

  /** The result of a body: the session first, then the change. */
  ghost predicate Answered(r: Result<S.Checkpoint, ErrorCode>, s: S.Store, was: Repo, undisturbed: bool,
                           allowed: string -> bool, project: Id, session: Id, principal: Option<S.Identity>,
                           operation: Id, c: Id, change: Change, description: string)
  {
    if session == "" then r == Err(SessionRequired)
    else if !MayUse(s, project, session, principal) then r == Err(SessionNotFound)
    else ChangeAnswered(r, s, was, undisturbed, allowed, session, operation, c, change, description)
  }

  /** Whoever may use a session may do so while operations come and go. */
  lemma AnsweredByTables(r: Result<S.Checkpoint, ErrorCode>, s: S.Store, t: S.Store, was: Repo, undisturbed: bool,
                         allowed: string -> bool, project: Id, session: Id, principal: Option<S.Identity>,
                         operation: Id, c: Id, change: Change, description: string)
    requires Answered(r, s, was, undisturbed, allowed, project, session, principal, operation, c, change, description)
    requires s.sessions == t.sessions && s.checkpoints == t.checkpoints && S.SessionIdentitiesKept(t.audit, s.audit)
    requires operation in s.operations && operation in t.operations
    ensures Answered(r, t, was, undisturbed, allowed, project, session, principal, operation, c, change, description)
  {
    hide Missing;
    hide Fits;
    hide Suitable;
    hide AnySensitive;
    hide ChangedPaths;
    hide ValidDescription;
    hide ValidBranch;
  }

  /** The operation failed, and its caller is told why. */
  predicate EndsFailed(state: S.OpState, payload: S.Payload, status: string, code: string) {
    state == S.Failed && payload == S.Payload.Payload(status, "", Some(S.Failure.Failure(code, None, "")))
  }

  lemma SameUse(s: S.Store, t: S.Store, project: Id, session: Id, principal: Option<S.Identity>)
    requires s.sessions == t.sessions && S.SessionIdentitiesKept(s.audit, t.audit)
    ensures MayUse(s, project, session, principal) <==> MayUse(t, project, session, principal)
  {
    hide S.SessionIdentityOf;
  }

  /** What the result of a body means for the caller, from the store before the operation was stored. */
  lemma AnswerTold(body: Result<S.Checkpoint, ErrorCode>, state: S.OpState, payload: S.Payload,
                   summary: S.Checkpoint -> string, s: S.Store, s1: S.Store, was: Repo, undisturbed: bool,
                   allowed: string -> bool, project: Id, session: Id, principal: Option<S.Identity>,
                   operation: Id, c: Id, change: Change, description: string)
    requires Answered(body, s1, was, undisturbed, allowed, project, session, principal, operation, c, change, description)
    requires Tells(payload, state, body, summary) && operation in s1.operations
    requires s.sessions == s1.sessions && s.checkpoints == s1.checkpoints && S.SessionIdentitiesKept(s.audit, s1.audit)
    ensures if session == "" then EndsFailed(state, payload, "rejected", "SESSION_REQUIRED")
            else if !MayUse(s, project, session, principal) then EndsFailed(state, payload, "rejected", "SESSION_NOT_FOUND")
            else if !HasLength(description) then EndsFailed(state, payload, "rejected", "INVALID_REQUEST")
            else if AnySensitive(change) then EndsFailed(state, payload, "rejected", "SENSITIVE_PATH")
            else if Missing(change, was.work) then EndsFailed(state, payload, "rejected", "FILE_NOT_FOUND")
            else if SamePath(change) then EndsFailed(state, payload, "rejected", "INVALID_REQUEST")
            else if !Fits(change, was.work) then EndsFailed(state, payload, "rejected", "CONFLICT")
            else undisturbed ==>
              if HeadOf(was).None? then EndsFailed(state, payload, "failed", "BACKEND_UNAVAILABLE")
              else if !allowed(BranchName(was)) then EndsFailed(state, payload, "rejected", "BRANCH_NOT_ALLOWED")
              else if ChangedPaths(was) != {} then EndsFailed(state, payload, "rejected", "WORKSPACE_DIRTY")
              else if c in s.checkpoints then EndsFailed(state, payload, "failed", "BACKEND_UNAVAILABLE")
              else if !Suitable(change, was) then EndsFailed(state, payload, "rejected", "CONFLICT")
              else (&& ValidDescription(description) && ValidRequestId(session) && DiskWorks(change)
                    && ValidBranch(BranchName(was))) ==> state == S.Succeeded
  {
    hide MayUse;
    hide HeadOf;
    hide BranchName;
    hide HasLength;
    hide DiskWorks;
    hide ValidRequestId;
    hide SamePath;
    hide Missing;
    hide Fits;
    hide Suitable;
    hide AnySensitive;
    hide ChangedPaths;
    hide ValidDescription;
    hide ValidBranch;
    SameUse(s, s1, project, session, principal);
  }

  /** The tables on which a mutation depends. */
  predicate SameTables(s: S.Store, t: S.Store) {
    s.sessions == t.sessions && s.operations == t.operations && s.checkpoints == t.checkpoints
  }

  lemma EvidenceByTables(s: S.Store, t: S.Store, project: Id, session: Id, branch: string, head: CommitId)
    requires SameTables(s, t)
    ensures ProvenTip(s, project, session, branch, head) <==> ProvenTip(t, project, session, branch, head)
  {
    forall w ensures S.ProvesSessionWip(s, w, project, session, branch, head)
                  == S.ProvesSessionWip(t, w, project, session, branch, head) {}
  }

  /** Whether a mutation made a step is seen from the tables alone. */
  lemma StepByTables(s: S.Store, r: Repo, t: S.Store, q: Repo, s1: S.Store, t1: S.Store,
                     project: Id, session: Id, operation: Id, c: Id, description: string)
    requires SameTables(s, s1) && SameTables(t, t1)
    requires BodyStep(s, r, t, q, project, session, operation, c, description)
    ensures BodyStep(s1, r, t1, q, project, session, operation, c, description)
  {
    hide ProvenTip;
    hide OwnedTip;
    hide SharedRefs;
    hide Unshared;
    hide MovedRow;
    hide StillRow;
    hide TipsKept;
    hide OneNewTip;
    hide WipMessage;
    if HeadOf(r).Some? { EvidenceByTables(s, s1, project, session, BranchName(r), HeadOf(r).value); }
  }

  /** The end of the operation changed its row alone. */
  predicate Ended(ran: S.Store, v: S.Store, m: Mutation) {
    && v.sessions == ran.sessions && v.checkpoints == ran.checkpoints
    && v.operations == ran.operations[m.operation := m.finished]
  }

  /** Start, launch, body and end of one operation make one step of a series. */
  lemma StepMade(w: World, validated: S.Store, q: Repo, v: S.Store, m: Mutation, project: Id)
    requires m.operation !in w.store.operations && Launched(m.running, project, m.session)
    requires SameTables(AtLaunch(validated, m), AtLaunch(w.store, m))
    requires exists running: S.Store, ran: S.Store ::
               && SameTables(running, AtLaunch(validated, m))
               && BodyStep(running, w.repo, ran, q, project, m.session, m.operation, m.checkpoint, m.description)
               && Ended(ran, v, m)
    requires HeadOf(q) != HeadOf(w.repo) ==> m.finished.state == S.Succeeded
    requires m.finished.project == project && m.finished.session == Some(m.session) && m.finished.mutation
    requires v.operations == w.store.operations[m.operation := m.finished]
    ensures Step(w, m, World(v, q), project)
  {
    hide ProvenTip;
    hide OwnedTip;
    hide SharedRefs;
    hide Unshared;
    hide MovedRow;
    hide StillRow;
    hide TipsKept;
    hide OneNewTip;
    hide WipMessage;
    var running, ran :| && SameTables(running, AtLaunch(validated, m))
                        && BodyStep(running, w.repo, ran, q, project, m.session, m.operation, m.checkpoint, m.description)
                        && Ended(ran, v, m);
    StepByTables(running, w.repo, ran, q, AtLaunch(w.store, m), v.(operations := AtLaunch(w.store, m).operations),
                 project, m.session, m.operation, m.checkpoint, m.description);
  }

  /** What the end of an operation needs of its body. */
  lemma BodyMeans(s: S.Store, was: seq<Effect>, t: S.Store, now: seq<Effect>, from: seq<Move>, to: seq<Move>,
                  r: Result<S.Checkpoint, ErrorCode>, project: Id, session: Id, operation: Id, c: Id, description: string)
    requires BodyOutcome(s, was, t, now, r, project, session, operation, c, description)
    requires BodyMoves(s, from, t, to, r, project, session, c, description)
    ensures t.operations == s.operations && from <= to
    ensures StateOf(r) == S.Failed ==> OthersOrRef(from, to, c)
  {
    hide RowAdded;
    hide OthersOrRef;
    hide OwnMove;
    hide AmendJustified;
  }

  /** Once the only operation that could hold the project has ended, it holds it exactly while it is unknown. */
  lemma SlotAfter(s: S.Store, t: S.Store, operation: Id, project: Id)
    requires forall h :: !S.HoldsProject(s, h, project)
    requires operation in t.operations && t.operations == s.operations[operation := t.operations[operation]]
    requires t.operations[operation].project == project && t.operations[operation].mutation
    requires t.operations[operation].state in {S.Succeeded, S.Failed, S.Unknown}
    ensures (exists h :: S.HoldsProject(t, h, project)) <==> t.operations[operation].state == S.Unknown
  {
    if t.operations[operation].state == S.Unknown { assert S.HoldsProject(t, operation, project); }
    if h :| S.HoldsProject(t, h, project) { assert h != operation ==> S.HoldsProject(s, h, project); }
  }

  lemma SessionsSame(a: seq<S.Event>, b: seq<S.Event>)
    requires S.IdentitiesKept(a, b)
    ensures S.SessionIdentitiesKept(a, b)
  {
  }

  lemma TellsState(payload: S.Payload, state: S.OpState, body: Result<S.Checkpoint, ErrorCode>,
                   summary: S.Checkpoint -> string)
    requires Tells(payload, state, body, summary)
    ensures state == StateOf(body)
    ensures body.Ok? ==> payload == S.Payload.Payload("succeeded", summary(body.value), None)
  {
  }

  lemma InsertableMeans(s: S.Store, q: Request)
    requires Insertable(s, q) && q.mutation
    ensures forall h :: !S.HoldsProject(s, h, q.project)
  {
  }

  class ExecutionService {
    const operations: OperationService
    const sessions: SessionService
    const mutations: MutationService
    /** How a recorded checkpoint is shown to the caller. */
    const summary: S.Checkpoint -> string

    constructor (operations: OperationService, sessions: SessionService, mutations: MutationService,
                 summary: S.Checkpoint -> string)
      ensures this.operations == operations && this.sessions == sessions && this.mutations == mutations
      ensures this.summary == summary
    {
      this.operations, this.sessions, this.mutations, this.summary := operations, sessions, mutations, summary;
    }

    /** One database and one workspace behind all services. */
    ghost predicate Valid()
      reads mutations.checkpoints.database, mutations.checkpoints.git.work
    {
      && operations.database == sessions.database == mutations.checkpoints.database
      && mutations.checkpoints.Valid()
    }

    /** The body: the session must be active and the caller's, then the file is changed. */
    method Body(project: Id, session: Id, principal: Option<S.Identity>, operation: Id, c: Id, change: Change,
                description: string)
      returns (r: Result<S.Checkpoint, ErrorCode>)
      requires Valid()
      modifies mutations.checkpoints.database, mutations.checkpoints.git.work
      ensures Valid() && Extends(old(mutations.checkpoints.git.work.repo), mutations.checkpoints.git.work.repo)
      ensures r.Ok? ==> session != "" && MayUse(old(mutations.checkpoints.database.Contents()), project, session, principal)
      ensures var store, work := mutations.checkpoints.database, mutations.checkpoints.git.work;
              && BodyOutcome(old(store.Contents()), old(work.effects), store.Contents(), work.effects, r,
                             project, session, operation, c, description)
              && BodyMoves(old(store.Contents()), old(work.trace), store.Contents(), work.trace, r,
                           project, session, c, description)
      ensures var store, work := mutations.checkpoints.database, mutations.checkpoints.git.work;
              old(work.script) == [] && ValidBranch(BranchName(old(work.repo))) ==>
                && BodyStep(old(store.Contents()), old(work.repo), store.Contents(), work.repo,
                            project, session, operation, c, description)
                && (HeadOf(work.repo) != HeadOf(old(work.repo)) ==> r.Ok?)
      ensures var store, work := mutations.checkpoints.database, mutations.checkpoints.git.work;
              Answered(r, old(store.Contents()), old(work.repo), old(work.script) == [], mutations.branchAllowed,
                       project, session, principal, operation, c, change, description)
      ensures r.Ok? ==> c in mutations.checkpoints.database.checkpoints
                        && mutations.checkpoints.database.checkpoints[c] == r.value
    {
      hide Extends;
      hide Accounted;
      hide S.Consistent;
      hide BodyOutcome;
      hide BodyMoves;
      hide BodyStep;
      hide MayUse;
      hide ChangeAnswered;
      ghost var s, w := mutations.checkpoints.database.Contents(), mutations.checkpoints.git.work;
      NothingDone(s, w.repo, w.effects, project, session, operation, c, description);
      UntouchedBody(w.trace, s, project, session, c, description);
      ExtendsSelf(w.repo);
      var code := sessions.RequireActive(project, session, principal);
      if code.Some? { return Err(if code.value == "SESSION_REQUIRED" then SessionRequired else SessionNotFound); }
      r := ChangeFiles(project, session, operation, c, change, description);
    }

    method ChangeFiles(project: Id, session: Id, operation: Id, c: Id, change: Change, description: string)
      returns (r: Result<S.Checkpoint, ErrorCode>)
      requires Valid()
      modifies mutations.checkpoints.database, mutations.checkpoints.git.work
      ensures Valid() && Extends(old(mutations.checkpoints.git.work.repo), mutations.checkpoints.git.work.repo)
      ensures var store, work := mutations.checkpoints.database, mutations.checkpoints.git.work;
              && BodyOutcome(old(store.Contents()), old(work.effects), store.Contents(), work.effects, r,
                             project, session, operation, c, description)
              && BodyMoves(old(store.Contents()), old(work.trace), store.Contents(), work.trace, r,
                           project, session, c, description)
      ensures var store, work := mutations.checkpoints.database, mutations.checkpoints.git.work;
              old(work.script) == [] && ValidBranch(BranchName(old(work.repo))) ==>
                && BodyStep(old(store.Contents()), old(work.repo), store.Contents(), work.repo,
                            project, session, operation, c, description)
                && (HeadOf(work.repo) != HeadOf(old(work.repo)) ==> r.Ok?)
      ensures var store, work := mutations.checkpoints.database, mutations.checkpoints.git.work;
              ChangeAnswered(r, old(store.Contents()), old(work.repo), old(work.script) == [], mutations.branchAllowed,
                             session, operation, c, change, description)
      ensures r.Ok? ==> c in mutations.checkpoints.database.checkpoints
                        && mutations.checkpoints.database.checkpoints[c] == r.value
    {
      hide Extends;
      hide Accounted;
      hide Repository.WellFormed;
      hide S.Consistent;
      hide BodyOutcome;
      hide BodyMoves;
      hide BodyStep;
      hide EarnedMode;
      hide IsSensitive;
      hide ChangedPaths;
      hide Acceptable;
      hide Performed;
      hide ValidBranch;
      hide IsDirectory;
      match change
      case Rewrites(path, edit, disk) =>
        r := mutations.EditFile(project, session, operation, c, path, edit, description, disk);
      case Moves(source, destination) =>
        r := mutations.MoveFile(project, session, operation, c, source, destination, description);
      case Deletes(path) =>
        r := mutations.DeleteFile(project, session, operation, c, path, description);
        }

    /** A running operation ends in the state its body came to, and its caller is told. */
    method EndOperation(id: Id, body: Result<S.Checkpoint, ErrorCode>) returns (payload: S.Payload)
      requires Valid() && id in mutations.checkpoints.database.operations
      requires mutations.checkpoints.database.operations[id].state == S.Running
      modifies mutations.checkpoints.database
      ensures Valid() && id in mutations.checkpoints.database.operations
      ensures var store, was := mutations.checkpoints.database, old(mutations.checkpoints.database.operations)[id];
              && store.sessions == old(store.sessions) && store.checkpoints == old(store.checkpoints)
              && store.operations == old(store.operations)[id := store.operations[id]]
              && store.operations[id] == was.(state := store.operations[id].state, result := Some(payload),
                                              error := store.operations[id].error)
              && Tells(payload, store.operations[id].state, body, summary)
    {
      hide Extends;
      hide Accounted;
      hide Repository.WellFormed;
      hide S.Consistent;
      hide S.IdentitiesKept;
      hide CodeOf;
      payload := PayloadOf(body, summary);
      var error := operations.Finish(id, StateOf(body), payload);
      assert payload.error.Some? ==> payload.error.value.approvalToken.None?;
    }

    /** A validated operation is launched, runs its body and ends in the state the body came to. */
    method RunOperation(q: Request, session: Id, c: Id, change: Change, description: string)
      returns (payload: S.Payload, ghost m: Mutation, ghost body: Result<S.Checkpoint, ErrorCode>)
      requires Valid() && q.operation in mutations.checkpoints.database.operations
      requires mutations.checkpoints.database.operations[q.operation].state == S.Validated
      modifies mutations.checkpoints.database, mutations.checkpoints.git.work
      ensures Valid() && Extends(old(mutations.checkpoints.git.work.repo), mutations.checkpoints.git.work.repo)
      ensures var row, store := old(mutations.checkpoints.database.operations)[q.operation], mutations.checkpoints.database;
              && store.operations == old(store.operations)[q.operation := m.finished]
              && m.running == row.(state := S.Running)
              && m.finished == row.(state := m.finished.state, result := Some(payload), error := m.finished.error)
              && Tells(payload, m.finished.state, body, summary)
              && (body.Ok? ==> c in store.checkpoints && store.checkpoints[c] == body.value)
      ensures var store, work := mutations.checkpoints.database, mutations.checkpoints.git.work;
              Answered(body, old(store.Contents()), old(work.repo), old(work.script) == [], mutations.branchAllowed,
                       q.project, session, q.identity, q.operation, c, change, description)
      ensures var work := mutations.checkpoints.git.work;
              && old(work.trace) <= work.trace
              && (m.finished.state == S.Failed ==> OthersOrRef(old(work.trace), work.trace, c))
      ensures var was, now := old(mutations.checkpoints.git.work.repo), mutations.checkpoints.git.work.repo;
              old(mutations.checkpoints.git.work.script) == [] && m.finished.state == S.Failed ==>
                && now.commits == was.commits && now.head == was.head && now.index == was.index && now.work == was.work
                && forall n: RefName :: n != CheckpointRef(c) ==> Lookup(now.refs, n) == Lookup(was.refs, n)
      ensures m == Mutation(session, q.operation, c, description, m.running, m.finished)
      ensures var store, work := mutations.checkpoints.database, mutations.checkpoints.git.work;
              old(work.script) == [] && ValidBranch(BranchName(old(work.repo))) ==>
                && (HeadOf(work.repo) != HeadOf(old(work.repo)) ==> m.finished.state == S.Succeeded)
                && exists running: S.Store, ran: S.Store ::
                     && SameTables(running, AtLaunch(old(store.Contents()), m))
                     && BodyStep(running, old(work.repo), ran, work.repo, q.project, session, q.operation, c, description)
                     && Ended(ran, store.Contents(), m)
    {
      hide Extends;
      hide Accounted;
      hide S.Consistent;
      hide BodyStep;
      hide BodyOutcome;
      hide BodyMoves;
      hide MayUse;
      hide OthersOrRef;
      hide Answered;
      hide S.SessionIdentityOf;
      hide S.IdentityOf;
      hide S.SessionIdentitiesKept;
      hide Repository.WellFormed;
      hide Tells;
      hide HeadOf;
      hide BranchName;
      hide ChangedPaths;
      hide ValidBranch;
      var id := q.operation;
      ghost var past := mutations.checkpoints.git.work.Past();
      var error := operations.Dispatch(id, S.Validated);
      ghost var running := mutations.checkpoints.database.Contents();
      ghost var e, was := mutations.checkpoints.git.work.effects, mutations.checkpoints.git.work.trace;
      var result := Body(q.project, session, q.identity, id, c, change, description);
      ghost var ran := mutations.checkpoints.database.Contents();
      BodyMeans(running, e, ran, mutations.checkpoints.git.work.effects, was, mutations.checkpoints.git.work.trace, result,
                q.project, session, id, c, description);
      body := result;
      if old(mutations.checkpoints.git.work.script) == [] && StateOf(body) == S.Failed {
        OnlyRefMoved(mutations.checkpoints.git.work.origin, mutations.checkpoints.git.work.world, past,
                     mutations.checkpoints.git.work.Past(), c);
      }
      SessionsSame(old(mutations.checkpoints.database.audit), running.audit);
      AnsweredByTables(body, running, old(mutations.checkpoints.database.Contents()), old(mutations.checkpoints.git.work.repo),
                       old(mutations.checkpoints.git.work.script) == [], mutations.branchAllowed, q.project, session,
                       q.identity, id, c, change, description);
      payload := EndOperation(id, result);
      TellsState(payload, mutations.checkpoints.database.operations[id].state, body, summary);
      m := Mutation(session, id, c, description, running.operations[id], mutations.checkpoints.database.operations[id]);
      assert Ended(ran, mutations.checkpoints.database.Contents(), m);
    }

    /** One request. Refused or answered from the store, it changes nothing; else the operation ends in the
        state its body came to, with the caller's payload stored for the retries; a failed operation
        changed nothing of the repository but its checkpoint ref; and undisturbed, all of it is one step
        of a series of mutations. */
    method Execute(q: Request, session: Id, c: Id, change: Change, description: string)
      returns (started: StartOutcome, payload: Option<S.Payload>, ghost ran: Option<Mutation>,
               ghost body: Result<S.Checkpoint, ErrorCode>)
      requires Valid() && SeparatorFree(q.digest) && q.mutation && q.session == Some(session)
      modifies mutations.checkpoints.database, mutations.checkpoints.git.work
      ensures Valid() && Extends(old(mutations.checkpoints.git.work.repo), mutations.checkpoints.git.work.repo)
      ensures started.Started? <==> payload.Some?
      ensures started.Started? <==> ran.Some?
      ensures var store, work := mutations.checkpoints.database, mutations.checkpoints.git.work;
              if !started.Started? then
                store.Contents() == old(store.Contents()) && work.repo == old(work.repo) && work.trace == old(work.trace)
              else
                var m := ran.value;
                && m == Mutation(session, q.operation, c, description, m.running, m.finished)
                && q.operation !in old(store.operations)
                && store.operations == old(store.operations)[q.operation := m.finished]
                && m.finished.result == payload && m.finished.hash == q.canonicalHash
                && old(work.trace) <= work.trace
                && (m.finished.state == S.Failed ==> OthersOrRef(old(work.trace), work.trace, c))
      ensures var store := mutations.checkpoints.database;
              started.Started? ==>
                var m, state := ran.value, ran.value.finished.state;
                && Tells(payload.value, state, body, summary)
                && (state == S.Succeeded <==> body.Ok?) && (state == S.Unknown <==> body == Err(UnknownSideEffect))
                && (state == S.Failed <==> body.Err? && body.error != UnknownSideEffect)
                && (state == S.Succeeded ==>
                      c in store.checkpoints && payload == Some(S.Payload.Payload("succeeded", summary(store.checkpoints[c]), None)))
                && ((exists h :: S.HoldsProject(store.Contents(), h, q.project)) <==> state == S.Unknown)
      ensures var was, now := old(mutations.checkpoints.git.work.repo), mutations.checkpoints.git.work.repo;
              started.Started? && old(mutations.checkpoints.git.work.script) == [] && ran.value.finished.state == S.Failed ==>
                && now.commits == was.commits && now.head == was.head && now.index == was.index && now.work == was.work
                && forall n: RefName :: n != CheckpointRef(c) ==> Lookup(now.refs, n) == Lookup(was.refs, n)
      ensures var s, was, undisturbed := old(mutations.checkpoints.database.Contents()),
                old(mutations.checkpoints.git.work.repo), old(mutations.checkpoints.git.work.script) == [];
              started.Started? ==>
                var state, answer := ran.value.finished.state, payload.value;
                if session == "" then EndsFailed(state, answer, "rejected", "SESSION_REQUIRED")
                else if !MayUse(s, q.project, session, q.identity) then EndsFailed(state, answer, "rejected", "SESSION_NOT_FOUND")
                else if !HasLength(description) then EndsFailed(state, answer, "rejected", "INVALID_REQUEST")
                else if AnySensitive(change) then EndsFailed(state, answer, "rejected", "SENSITIVE_PATH")
                else if Missing(change, was.work) then EndsFailed(state, answer, "rejected", "FILE_NOT_FOUND")
                else if SamePath(change) then EndsFailed(state, answer, "rejected", "INVALID_REQUEST")
                else if !Fits(change, was.work) then EndsFailed(state, answer, "rejected", "CONFLICT")
                else undisturbed ==>
                  if HeadOf(was).None? then EndsFailed(state, answer, "failed", "BACKEND_UNAVAILABLE")
                  else if !mutations.branchAllowed(BranchName(was)) then EndsFailed(state, answer, "rejected", "BRANCH_NOT_ALLOWED")
                  else if ChangedPaths(was) != {} then EndsFailed(state, answer, "rejected", "WORKSPACE_DIRTY")
                  else if c in s.checkpoints then EndsFailed(state, answer, "failed", "BACKEND_UNAVAILABLE")
                  else if !Suitable(change, was) then EndsFailed(state, answer, "rejected", "CONFLICT")
                  else (&& ValidDescription(description) && ValidRequestId(session) && DiskWorks(change)
                        && ValidBranch(BranchName(was))) ==> state == S.Succeeded
      ensures var store, work := mutations.checkpoints.database, mutations.checkpoints.git.work;
              started.Started? && old(work.script) == [] && ValidBranch(BranchName(old(work.repo))) ==>
                Step(World(old(store.Contents()), old(work.repo)), ran.value, World(store.Contents(), work.repo), q.project)
    {
      hide Extends;
      hide Accounted;
      hide S.Consistent;
      hide BodyStep;
      hide OthersOrRef;
      hide Answers;
      hide Unanswered;
      hide Insertable;
      hide MayReplay;
      hide Step;
      hide Answered;
      hide S.SessionIdentityOf;
      hide S.IdentityOf;
      hide AnySensitive;
      hide HasLength;
      hide EndsFailed;
      hide Tells;
      hide DiskWorks;
      hide ValidDescription;
      hide ValidBranch;
      hide ValidRequestId;
      hide Repository.WellFormed;
      hide S.SessionIdentitiesKept;
      hide Missing;
      hide Fits;
      hide Suitable;
      hide MayUse;
      hide ChangedPaths;
      hide SamePath;
      hide HeadOf;
      hide BranchName;
      ghost var s0 := mutations.checkpoints.database.Contents();
      ghost var r0 := mutations.checkpoints.git.work.repo;
      ExtendsSelf(r0);
      started := operations.Start(q);
      payload, ran, body := None, None, Err(Conflict);
      if !started.Started? { return; }
      ghost var s1 := mutations.checkpoints.database.Contents();
      ghost var undisturbed := mutations.checkpoints.git.work.script == [];
      var answer, m, result := RunOperation(q, session, c, change, description);
      payload, ran, body := Some(answer), Some(m), result;
      InsertableMeans(s0, q);
      TellsState(answer, m.finished.state, body, summary);
      AnswerTold(body, m.finished.state, answer, summary, s0, s1, r0, undisturbed, mutations.branchAllowed, q.project,
                 session, q.identity, q.operation, c, change, description);
      SlotAfter(s0, mutations.checkpoints.database.Contents(), q.operation, q.project);
      if old(mutations.checkpoints.git.work.script) == [] && ValidBranch(BranchName(r0)) {
        StepMade(World(s0, r0), s1, mutations.checkpoints.git.work.repo, mutations.checkpoints.database.Contents(), m,
                 q.project);
      }
    }
  }
}
