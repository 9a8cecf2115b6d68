/** The file mutations of `mcp_server.py`: checkpoint, commit mode, Git mutation, finalization. They run
    under the project's mutation lock; the commands of others still interleave at every await. */
module MutationServices {
  import opened Basics
  import opened Repository
  import opened Footers
  import opened Workspaces
  import opened GitGuards
  import opened CheckpointServices
  import opened MutationModel
  import opened PathPolicy
  import LineEndings
  import S = StoreModel

  /** What a caller asks for: a new file, one exact replacement, or new content for known content. */
  datatype Edit =
    | NewFile(text: string)
    | Replacement(old_: string, new_: string)
    | Overwrite(expected: string, text: string)

  /** The bytes to write, from what the file holds now. */
  function Prepare(edit: Edit, raw: Option<string>): Result<string, ErrorCode> {
    match edit
    case NewFile(text) => Ok(text)
    case Replacement(old_, new_) =>
      if raw.None? then Err(FileNotFound)
      else
        var replaced := LineEndings.ReplaceExact(raw.value, old_, new_);
        if replaced.Ok? then Ok(replaced.value) else Err(Conflict)
    case Overwrite(expected, text) =>
      if raw.None? then Err(FileNotFound)
      else if raw.value != expected then Err(Conflict)
      else Ok(LineEndings.EncodeExisting(raw.value, text))
  }

  /** What the caller asked for, from what the file held before to what it holds now: the new file's text as
      it is; one place of the old text holding the new text; or the new text in place of the known one.
      In a file that exists the caller's lines take the file's own ending. */
  ghost predicate Performed(edit: Edit, before: Option<string>, after: string) {
    match edit
    case NewFile(text) => before.None? && after == text
    case Replacement(old_, new_) => before.Some? && LineEndings.Replaced(before.value, old_, new_, after)
    case Overwrite(expected, text) => before == Some(expected) && after == LineEndings.InFile(expected, text)
  }

  /** What the file holds allows the edit: the old text stands in it once, or its content is the known one. */
  ghost predicate Acceptable(edit: Edit, before: Option<string>) {
    match edit
    case NewFile(_) => true
    case Replacement(old_, _) => before.Some? && LineEndings.Replaceable(before.value, old_)
    case Overwrite(expected, _) => before == Some(expected)
  }

  /** The prepared bytes are what the caller asked for, and a conflict is the only refusal of a file that exists. */
  lemma PreparedAsAsked(edit: Edit, raw: Option<string>)
    requires edit.NewFile? <==> raw.None?
    ensures Prepare(edit, raw).Ok? <==> Acceptable(edit, raw)
    ensures Prepare(edit, raw).Ok? ==> Performed(edit, raw, Prepare(edit, raw).value)
    ensures Prepare(edit, raw).Err? ==> Prepare(edit, raw).error == Conflict
  {
    hide LineEndings.Replaced;
    hide LineEndings.Replaceable;
    hide LineEndings.InFile;
    hide LineEndings.ReplaceExact;
    hide LineEndings.MatchExisting;
    match edit
    case NewFile(_) =>
    case Replacement(old_, new_) =>
      LineEndings.EditsReplace(raw.value, old_, new_);
      LineEndings.AcceptedExactly(raw.value, old_, new_);
    case Overwrite(expected, text) => LineEndings.MatchedLines(expected, text);
  }

  /** Edits keep the line endings of the file they change. */
  lemma PreparedKeepsEndings(edit: Edit, raw: string)
    requires !edit.NewFile? && Prepare(edit, Some(raw)).Ok?
    ensures LineEndings.Dos(raw) && LineEndings.Count(raw, "\r\n") > 0 ==>
              LineEndings.Dos(Prepare(edit, Some(raw)).value)
    ensures LineEndings.NoCr(raw) ==> LineEndings.NoCr(Prepare(edit, Some(raw)).value)
  {
    if edit.Replacement? {
      LineEndings.EditsKeepLineEndings(raw, edit.old_, edit.new_);
    } else {
      LineEndings.OverwritesKeepLineEndings(raw, edit.text);
    }
  }

  /** A new file needs a free path, an edit an existing file. */
  predicate TargetFits(edit: Edit, path: Path, work: Tree) {
    if edit.NewFile? then path !in work && !IsDirectory(work, path) else path in work
  }

  function TargetError(edit: Edit): ErrorCode {
    if edit.NewFile? then Conflict else FileNotFound
  }

  /** Undisturbed, a mutation gets past its opening exactly then. */
  predicate Opens(s: S.Store, r: Repo, branchAllowed: string -> bool, operation: Id, c: Id) {
    && HeadOf(r).Some? && branchAllowed(BranchName(r)) && ChangedPaths(r) == {}
    && c !in s.checkpoints && operation in s.operations
  }

  /** Why it does not; a checkpoint that cannot be stored is the last reason. */
  function OpeningError(r: Repo, branchAllowed: string -> bool): ErrorCode {
    if HeadOf(r).None? then BackendUnavailable
    else if !branchAllowed(BranchName(r)) then BranchNotAllowed
    else if ChangedPaths(r) != {} then WorkspaceDirty
    else StoreFailure
  }

  /** The source must be tracked and still there, the destination still free. */
  function MoveRefusal(tracked: Tree, work: Tree, source: Path, destination: Path): (refusal: Option<ErrorCode>)
    ensures refusal != Some(UnknownSideEffect)
  {
    if source !in tracked then Some(Conflict)
    else if source !in work then Some(FileNotFound)
    else if destination in work || IsDirectory(work, destination) then Some(Conflict)
    else None
  }

  lemma CheckpointRefsKeepHead(r: Repo, q: Repo, c: Id)
    ensures TipsKept(r, q, c) ==> HeadOf(q) == HeadOf(r)
  {
    if TipsKept(r, q, c) { CheckpointRefsShareNothing(r, q, c, 0, ""); }
  }

  /** If HEAD moved, it moved from the checkpoint's head to the committed one. */
  lemma HeadTrees(s1: S.Store, r0: Repo, r1: Repo, r2: Repo, project: Id, session: Id, c: Id, row: S.Checkpoint,
                  paths: seq<Path>, mode: CommitMode, description: string, committed: Result<CommitId, ErrorCode>)
    requires Opened(s1, r0, r1, project, session, c, row, mode) && Extends(r1, r2)
    requires WellFormed(r0) && row.head == row.before.head
    requires QuietCommit(r1, r2, row, paths, mode, WipMessage(description, session), committed)
    ensures r1.work == r0.work
    ensures HeadOf(r2) != HeadOf(r0) ==>
              && committed.Ok? && committed.value != row.head
              && HeadTree(r2) == TreeOf(r2, committed.value) && HeadTree(r0) == TreeOf(r2, row.head)
              && forall p :: p !in paths ==> Lookup(HeadTree(r2), p) == Lookup(HeadTree(r0), p)
  {
    hide ChangedPaths;
    hide SharedRefs;
    hide Unshared;
    hide AmendEvidence;
    CapturedStaysClean(r0, r1, c, row.before);
    ExtendsMeans(r1, r2);
  }

  /** An opened mutation is ready for its commit. */
  lemma OpenedReady(s1: S.Store, r0: Repo, r1: Repo, project: Id, session: Id, c: Id, row: S.Checkpoint,
                    mode: CommitMode, description: string)
    requires Opened(s1, r0, r1, project, session, c, row, mode) && WellFormed(r0)
    requires row.head == row.before.head && row.branch == row.before.branch
    ensures Ready(r1, mode, description, session, row.head, row.branch) <==> ValidArguments(mode, description, session)
    ensures r1.work == r0.work && HeadTree(r1) == HeadTree(r0) && row.before.files == HeadTree(r0)
    ensures row.branch == BranchName(r0)
    ensures forall p :: p in HeadTree(r0) ==> Lookup(r0.work, p) == Some(HeadTree(r0)[p])
    ensures r1.index == HeadTree(r0) && r1.ignored == r0.ignored
  {
    hide ChangedPaths;
    hide SharedRefs;
    hide Unshared;
    hide ValidArguments;
    hide AmendEvidence;
    CapturedStaysClean(r0, r1, c, row.before);
    CleanMeans(r0);
  }

  /** Whatever an undisturbed mutation of harmless paths committed can be recorded. */
  lemma QuietReviewable(s1: S.Store, r0: Repo, r1: Repo, r2: Repo, project: Id, session: Id, c: Id, row: S.Checkpoint,
                        paths: seq<Path>, mode: CommitMode, description: string, committed: Result<CommitId, ErrorCode>)
    requires Opened(s1, r0, r1, project, session, c, row, mode) && WellFormed(r0)
    requires row.head == row.before.head && row.branch == row.before.branch
    requires QuietCommit(r1, r2, row, paths, mode, WipMessage(description, session), committed)
    requires forall p :: p in paths ==> !IsSensitive(p)
    ensures committed.Ok? ==>
              && Reviewable(r2, c, committed.value, row.branch)
              && (HeadOf(r2) == HeadOf(r0) <==> committed.value == row.head)
  {
    hide ChangedPaths;
    hide SharedRefs;
    hide Unshared;
    hide AmendEvidence;
    hide WipMessage;
    hide IsSensitive;
    hide OneNewTip;
    hide IsolatedCommit;
    CapturedStaysClean(r0, r1, c, row.before);
    if committed.Ok? {
      if committed.value != row.head {
        MovedReviewable(r1, r2, c, row, paths, mode, WipMessage(description, session));
      } else {
        assert ChangedBetween(RefTree(r2, c), TreeOf(r2, row.head)) == {};
      }
    }
  }

  /** A body that did not get past its opening. */
  lemma NotBegun(origin: Repo, world: seq<Interference>, past: History, now: History, s: S.Store, r: Repo,
                 code: ErrorCode, undisturbed: bool, project: Id, session: Id, operation: Id, c: Id, description: string)
    requires Accounted(origin, world, past) && Accounted(origin, world, now) && past.moves <= now.moves
    requires OnlyRefs(past.effects, now.effects, c) && code != UnknownSideEffect
    requires undisturbed ==> TipsKept(r, now.repo, c)
    ensures BodyOutcome(s, past.effects, s, now.effects, Err(code), project, session, operation, c, description)
    ensures BodyMoves(s, past.moves, s, now.moves, Err(code), project, session, c, description)
    ensures undisturbed ==>
              BodyStep(s, r, s, now.repo, project, session, operation, c, description) && HeadOf(now.repo) == HeadOf(r)
  {
    hide Accounted;
    hide OnlyRefs;
    hide BodyOutcome;
    hide BodyMoves;
    hide BodyStep;
    BeginFailed(s, r, now.repo, past.effects, now.effects, code, project, session, operation, c, description);
    CheckpointRefsKeepHead(r, now.repo, c);
    MovesOfBody(origin, world, past, now, s, s, Err(code), project, session, operation, c, description);
  }

  /** A body from its opening to its end, with everything that its parts promise. */
  lemma Concluded(origin: Repo, world: seq<Interference>, past: History, now: History, s0: S.Store, r0: Repo,
                  s1: S.Store, r1: Repo, e1: seq<Effect>, script: seq<Interference>, undisturbed: bool, r2: Repo,
                  s3: S.Store, paths: seq<Path>, mode: CommitMode, committed: Result<CommitId, ErrorCode>, grace: nat,
                  r: Result<S.Checkpoint, ErrorCode>, project: Id, session: Id, operation: Id, c: Id, row: S.Checkpoint,
                  description: string)
    requires Accounted(origin, world, past) && Accounted(origin, world, now) && past.moves <= now.moves
    requires WellFormed(r0) && RowAdded(s0, s1, project, session, operation, c) && row == s1.checkpoints[c]
    requires OnlyRefs(past.effects, e1, c)
    requires mode == AmendSessionWip ==> AmendEvidence(s1, r1, project, session, row)
    requires MutationOutcome(r1, script, e1, r2, now.effects, committed, paths, mode, WipMessage(description, session),
                             row.head, row.branch, grace)
    requires Extends(r0, r1) && Extends(r1, r2) && Extends(r2, now.repo)
    requires forall i :: 0 <= i < |now.effects| ==> Extends(now.effects[i].before, now.repo)
    requires r.Err? ==> s3 == s1 && r.error == if committed.Err? then committed.error else UnknownSideEffect
    requires r.Ok? ==> committed.Ok? && Finalized(s1, s3, c, committed.value, row.branch)
    requires forall p :: p in paths ==> !IsSensitive(p)
    requires undisturbed ==>
      && script == [] && Opened(s1, r0, r1, project, session, c, row, mode) && now.repo == r2
      && (r.Ok? <==> committed.Ok? && ValidBranch(row.branch) && Reviewable(r2, c, committed.value, row.branch))
      && (r.Ok? ==> s3.checkpoints[c].after.value.dirty == (ChangedPaths(r2) != {}))
    ensures Extends(r0, now.repo)
    ensures BodyOutcome(s0, past.effects, s3, now.effects, r, project, session, operation, c, description)
    ensures BodyMoves(s0, past.moves, s3, now.moves, r, project, session, c, description)
    ensures undisturbed && ValidBranch(BranchName(r0)) ==>
              BodyStep(s0, r0, s3, now.repo, project, session, operation, c, description)
              && (HeadOf(now.repo) != HeadOf(r0) ==> r.Ok?)
    ensures undisturbed && committed.Ok? ==>
              && (r.Ok? <==> ValidBranch(BranchName(r0)))
              && (HeadOf(r2) == HeadOf(r0) <==> committed.value == row.head)
    ensures undisturbed && HeadOf(r2) != HeadOf(r0) ==>
              && committed.Ok? && committed.value != row.head
              && HeadTree(r2) == TreeOf(r2, committed.value) && HeadTree(r0) == TreeOf(r2, row.head)
              && forall p :: p !in paths ==> Lookup(HeadTree(r2), p) == Lookup(HeadTree(r0), p)
  {
    hide Accounted;
    hide Extends;
    hide WellFormed;
    hide OnlyRefs;
    hide MutationOutcome;
    hide BodyOutcome;
    hide BodyMoves;
    hide BodyStep;
    hide Opened;
    hide Finalized;
    hide Reviewable;
    hide AmendEvidence;
    hide IsSensitive;
    hide ChangedPaths;
    hide ValidBranch;
    hide QuietCommit;
    hide WipMessage;
    ExtendsTransitive(r0, r1, r2);
    ExtendsTransitive(r0, r2, now.repo);
    Assemble(s0, r0, past.effects, s1, r1, e1, script, undisturbed, r2, now.effects, s3, now.repo, paths, mode, committed,
             grace, r, project, session, operation, c, description);
    MovesOfBody(origin, world, past, now, s0, s3, r, project, session, operation, c, description);
    if undisturbed {
      OpenedReady(s1, r0, r1, project, session, c, row, mode, description);
      HeadTrees(s1, r0, r1, r2, project, session, c, row, paths, mode, description, committed);
      QuietReviewable(s1, r0, r1, r2, project, session, c, row, paths, mode, description, committed);
    }
  }

  /** The old files with one path rewritten as the caller asked. */
  lemma Rewritten(r0: Repo, r2: Repo, committed: CommitId, path: Path, edit: Edit, work: Tree)
    requires HeadTree(r2) == TreeOf(r2, committed) && r0.work == work
    requires forall p :: p !in [path] ==> Lookup(HeadTree(r2), p) == Lookup(HeadTree(r0), p)
    requires var after := Lookup(TreeOf(r2, committed), path);
             after.Some? && Performed(edit, Lookup(work, path), after.value)
    requires forall p :: p in HeadTree(r0) ==> Lookup(work, p) == Some(HeadTree(r0)[p])
    ensures var before, after := HeadTree(r0), HeadTree(r2);
            && path in after && after == before[path := after[path]]
            && Performed(edit, Lookup(r0.work, path), after[path])
            && (path in before ==> Lookup(r0.work, path) == Some(before[path]))
  {
    hide Performed;
    hide TreeOf;
    var before, after := HeadTree(r0), HeadTree(r2);
    TreesEqual(after, before[path := after[path]]);
  }

  /** The file holds what the caller asked for, and HEAD has moved unless Git does not see a change. */
  lemma Written(r0: Repo, r1: Repo, r2: Repo, committed: CommitId, head: CommitId, path: Path, edit: Edit)
    requires r1.work == r0.work && r1.index == HeadTree(r0) && r1.ignored == r0.ignored
    requires forall p :: p in HeadTree(r0) ==> Lookup(r0.work, p) == Some(HeadTree(r0)[p])
    requires path in r2.work && r2.work == r1.work[path := r2.work[path]]
    requires Performed(edit, Lookup(r1.work, path), r2.work[path])
    requires committed == head <==> Lookup(r1.work, path) == Some(r2.work[path]) || !SeesChange(r1, path, r2.work[path])
    requires HeadOf(r2) == HeadOf(r0) <==> committed == head
    ensures && path in r2.work && r2.work == r0.work[path := r2.work[path]]
            && Performed(edit, Lookup(r0.work, path), r2.work[path])
            && (HeadOf(r2) == HeadOf(r0) <==>
                  || Lookup(r0.work, path) == Some(r2.work[path])
                  || (path !in HeadTree(r0) && path in r0.ignored))
  {
    hide Performed;
    hide HeadOf;
    hide HeadTree;
  }

  /** A mutation refused before it began. */
  lemma UntouchedBody(moves: seq<Move>, s: S.Store, project: Id, session: Id, c: Id, description: string)
    ensures forall code :: code != UnknownSideEffect ==>
              BodyMoves(s, moves, s, moves, Err(code), project, session, c, description)
  {
  }

  class MutationService {
    const checkpoints: CheckpointService
    const branchAllowed: string -> bool
    const requireClean: bool

    constructor (checkpoints: CheckpointService, branchAllowed: string -> bool, requireClean: bool)
      ensures this.checkpoints == checkpoints
      ensures this.branchAllowed == branchAllowed && this.requireClean == requireClean
    {
      this.checkpoints, this.branchAllowed, this.requireClean := checkpoints, branchAllowed, requireClean;
    }

    /** The root, an allowed branch and, where configured, a clean workspace. */
    method RequirePreconditions() returns (error: Option<ErrorCode>)
      requires checkpoints.git.work.Valid()
      modifies checkpoints.git.work
      ensures checkpoints.git.work.Valid() && Extends(old(checkpoints.git.work.repo), checkpoints.git.work.repo)
      ensures old(checkpoints.git.work.trace) <= checkpoints.git.work.trace
      ensures checkpoints.git.work.effects == old(checkpoints.git.work.effects)
      ensures error != Some(UnknownSideEffect)
      ensures old(checkpoints.git.work.script) == [] ==>
                checkpoints.git.work.repo == old(checkpoints.git.work.repo) && checkpoints.git.work.script == []
      ensures old(checkpoints.git.work.script) == [] ==>
                var r := checkpoints.git.work.repo;
                && (error == Some(BackendUnavailable) <==> HeadOf(r).None?)
                && (error == Some(BranchNotAllowed) <==> HeadOf(r).Some? && !branchAllowed(BranchName(r)))
                && (error == Some(WorkspaceDirty) <==>
                      HeadOf(r).Some? && branchAllowed(BranchName(r)) && requireClean && ChangedPaths(r) != {})
                && (error.None? <==>
                      HeadOf(r).Some? && branchAllowed(BranchName(r)) && (requireClean ==> ChangedPaths(r) == {}))
    {
      hide Extends;
      hide Accounted;
      hide WellFormed;
      hide ChangedPaths;
      ghost var r0 := checkpoints.git.work.repo;
      var fate := checkpoints.git.work.Await();
      ghost var r1 := checkpoints.git.work.repo;
      if fate != Completes { return Some(BackendUnavailable); }
      var status := checkpoints.git.work.Status();
      ExtendsTransitive(r0, r1, checkpoints.git.work.repo);
      if status.Err? { return Some(status.error); }
      if !branchAllowed(status.value.branch) { return Some(BranchNotAllowed); }
      if requireClean && status.value.changed != {} { return Some(WorkspaceDirty); }
      return None;
    }

    /** The checkpoint and the commit mode of a mutation. */
    method Begin(project: Id, session: Id, operation: Id, c: Id)
      returns (r: Result<(S.Checkpoint, CommitMode), ErrorCode>)
      requires checkpoints.Valid()
      modifies checkpoints.database, checkpoints.git.work
      ensures checkpoints.Valid() && Extends(old(checkpoints.git.work.repo), checkpoints.git.work.repo)
      ensures old(checkpoints.git.work.trace) <= checkpoints.git.work.trace
      ensures OnlyRefs(old(checkpoints.git.work.effects), checkpoints.git.work.effects, c)
      ensures r.Err? ==>
                checkpoints.database.Contents() == old(checkpoints.database.Contents()) && r.error != UnknownSideEffect
      ensures r.Ok? ==>
                && RowAdded(old(checkpoints.database.Contents()), checkpoints.database.Contents(),
                            project, session, operation, c)
                && checkpoints.database.checkpoints[c] == r.value.0
                && (r.value.1 == AmendSessionWip ==>
                      AmendEvidence(checkpoints.database.Contents(), checkpoints.git.work.repo,
                                    project, session, r.value.0))
      ensures old(checkpoints.git.work.script) == [] ==>
                && checkpoints.git.work.script == []
                && TipsKept(old(checkpoints.git.work.repo), checkpoints.git.work.repo, c)
                && (r.Ok? ==> Opened(checkpoints.database.Contents(), old(checkpoints.git.work.repo),
                                     checkpoints.git.work.repo, project, session, c, r.value.0, r.value.1))
      ensures old(checkpoints.git.work.script) == [] ==>
                var s, q := old(checkpoints.database.Contents()), old(checkpoints.git.work.repo);
                && (r.Ok? <==> Opens(s, q, branchAllowed, operation, c))
                && (r.Err? ==> r.error == OpeningError(q, branchAllowed))
    {
      hide Extends;
      hide Accounted;
      hide WellFormed;
      hide ChangedPaths;
      hide SharedRefs;
      hide Unshared;
      hide AmendEvidence;
      hide S.Consistent;
      ghost var r0 := checkpoints.git.work.repo;
      var error := RequirePreconditions();
      ghost var r1 := checkpoints.git.work.repo;
      if error.Some? { return Err(error.value); }
      var row := checkpoints.Create(c, project, Some(session), Some(operation), S.Mutation);
      ghost var r2 := checkpoints.git.work.repo;
      ExtendsTransitive(r0, r1, r2);
      if row.Err? { return Err(row.error); }
      if Captured(r1, r2, c, row.value.before) { CapturedStaysClean(r1, r2, c, row.value.before); }
      var mode := checkpoints.DetermineCommitMode(project, session, row.value);
      ExtendsTransitive(r0, r2, checkpoints.git.work.repo);
      return Ok((row.value, mode));
    }

    /** Records the result; a mutation whose result cannot be recorded is unknown. */
    method Finish(c: Id, row: S.Checkpoint, committed: Result<CommitId, ErrorCode>)
      returns (r: Result<S.Checkpoint, ErrorCode>)
      requires checkpoints.Valid() && c in checkpoints.database.checkpoints
      modifies checkpoints.database, checkpoints.git.work
      ensures checkpoints.Valid() && Extends(old(checkpoints.git.work.repo), checkpoints.git.work.repo)
      ensures old(checkpoints.git.work.trace) <= checkpoints.git.work.trace
      ensures checkpoints.git.work.effects == old(checkpoints.git.work.effects)
      ensures r.Err? ==> checkpoints.database.Contents() == old(checkpoints.database.Contents())
      ensures r.Err? ==> r.error == if committed.Err? then committed.error else UnknownSideEffect
      ensures r.Ok? ==>
                && committed.Ok? && c in old(checkpoints.database.checkpoints)
                && Finalized(old(checkpoints.database.Contents()), checkpoints.database.Contents(),
                             c, committed.value, row.branch)
                && c in checkpoints.database.checkpoints && checkpoints.database.checkpoints[c] == r.value
      ensures old(checkpoints.git.work.script) == [] ==>
                && checkpoints.git.work.repo == old(checkpoints.git.work.repo)
                && (r.Ok? <==> committed.Ok? && ValidBranch(row.branch) && c in old(checkpoints.database.checkpoints)
                               && Reviewable(checkpoints.git.work.repo, c, committed.value, row.branch))
                && (r.Ok? ==> r.value.after.value.dirty == (ChangedPaths(checkpoints.git.work.repo) != {}))
    {
      hide Extends;
      hide Accounted;
      hide WellFormed;
      hide ChangedPaths;
      hide ChangedBetween;
      hide S.Consistent;
      ExtendsSelf(checkpoints.git.work.repo);
      if committed.Err? { return Err(committed.error); }
      r := checkpoints.Finalize(c, row, committed.value, row.branch);
      if r.Err? && r.error != StoreFailure { r := Err(UnknownSideEffect); }
    }

    /** The checks of an edit before its checkpoint. */
    method CheckEdit(path: Path, edit: Edit, description: string) returns (refusal: Option<ErrorCode>)
      ensures refusal == if !(1 <= |description| <= 500) then Some(InvalidRequest)
                         else if IsSensitive(path) then Some(SensitivePath)
                         else if !TargetFits(edit, path, checkpoints.git.work.repo.work) then Some(TargetError(edit))
                         else None
    {
      if |description| == 0 || |description| > 500 { return Some(InvalidRequest); }
      if IsSensitive(path) { return Some(SensitivePath); }
      if !TargetFits(edit, path, checkpoints.git.work.repo.work) { return Some(TargetError(edit)); }
      return None;
    }

    /** Creates, edits or overwrites one file: what the caller asked for, on that path alone, in one commit. What
        it refuses before the checkpoint it refuses whatever others do; undisturbed, every refusal is given with
        its code, and there is no other. */
    method EditFile(project: Id, session: Id, operation: Id, c: Id, path: Path, edit: Edit, description: string,
                    disk: Disk)
      returns (r: Result<S.Checkpoint, ErrorCode>)
      requires checkpoints.Valid()
      modifies checkpoints.database, checkpoints.git.work
      ensures checkpoints.Valid() && Extends(old(checkpoints.git.work.repo), checkpoints.git.work.repo)
      ensures old(checkpoints.git.work.trace) <= checkpoints.git.work.trace
      ensures BodyOutcome(old(checkpoints.database.Contents()), old(checkpoints.git.work.effects),
                          checkpoints.database.Contents(), checkpoints.git.work.effects, r,
                          project, session, operation, c, description)
      ensures BodyMoves(old(checkpoints.database.Contents()), old(checkpoints.git.work.trace),
                        checkpoints.database.Contents(), checkpoints.git.work.trace, r,
                        project, session, c, description)
      ensures old(checkpoints.git.work.script) == [] && ValidBranch(BranchName(old(checkpoints.git.work.repo))) ==>
                && BodyStep(old(checkpoints.database.Contents()), old(checkpoints.git.work.repo),
                            checkpoints.database.Contents(), checkpoints.git.work.repo,
                            project, session, operation, c, description)
                && (HeadOf(checkpoints.git.work.repo) != HeadOf(old(checkpoints.git.work.repo)) ==> r.Ok?)
      ensures r.Ok? ==> c in checkpoints.database.checkpoints && checkpoints.database.checkpoints[c] == r.value
      ensures old(checkpoints.git.work.script) == []
              && HeadOf(checkpoints.git.work.repo) != HeadOf(old(checkpoints.git.work.repo)) ==>
                var before, after := HeadTree(old(checkpoints.git.work.repo)), HeadTree(checkpoints.git.work.repo);
                && path in after && after == before[path := after[path]]
                && Performed(edit, Lookup(old(checkpoints.git.work.repo).work, path), after[path])
                && (path in before ==> Lookup(old(checkpoints.git.work.repo).work, path) == Some(before[path]))
      ensures var was, now := old(checkpoints.git.work.repo), checkpoints.git.work.repo;
              old(checkpoints.git.work.script) == [] && r.Ok? ==>
                && path in now.work && now.work == was.work[path := now.work[path]]
                && Performed(edit, Lookup(was.work, path), now.work[path])
                && (HeadOf(now) == HeadOf(was) <==>
                      || Lookup(was.work, path) == Some(now.work[path])
                      || (path !in HeadTree(was) && path in was.ignored))
      ensures !(1 <= |description| <= 500) ==> r == Err(InvalidRequest)
      ensures 1 <= |description| <= 500 && IsSensitive(path) ==> r == Err(SensitivePath)
      ensures var work := old(checkpoints.git.work.repo).work;
              1 <= |description| <= 500 && !IsSensitive(path) ==>
                && (!edit.NewFile? && path !in work ==> r == Err(FileNotFound))
                && (edit.NewFile? && (path in work || IsDirectory(work, path)) ==> r == Err(Conflict))
      ensures var s, was := old(checkpoints.database.Contents()), old(checkpoints.git.work.repo);
              && old(checkpoints.git.work.script) == [] && 1 <= |description| <= 500 && !IsSensitive(path)
              && TargetFits(edit, path, was.work) ==>
                if !Opens(s, was, branchAllowed, operation, c) then r == Err(OpeningError(was, branchAllowed))
                else if !Acceptable(edit, Lookup(was.work, path)) then r == Err(Conflict)
                else if !ValidArguments(EarnedMode(s, was, project, session), description, session) then
                  r == Err(InvalidRequest)
                else if path in was.work && !disk.readable then r == Err(BackendUnavailable)
                else if disk.writable && ValidBranch(BranchName(was)) then r.Ok?
                else r.Ok? || r.error == UnknownSideEffect
    {
      hide Extends;
      hide Accounted;
      hide WellFormed;
      hide S.Consistent;
      hide BodyOutcome;
      hide BodyMoves;
      hide BodyStep;
      hide MutationOutcome;
      hide Opened;
      hide Finalized;
      hide Reviewable;
      hide AmendEvidence;
      hide OnlyRefs;
      hide TipsKept;
      hide ChangedPaths;
      hide IsSensitive;
      hide Performed;
      hide Acceptable;
      hide Ready;
      hide EarnedMode;
      hide SeesChange;
      hide ValidArguments;
      hide ValidBranch;
      hide Opens;
      hide OpeningError;
      hide QuietCommit;
      hide WipMessage;
      ghost var s0, r0, e0 := checkpoints.database.Contents(), checkpoints.git.work.repo, checkpoints.git.work.effects;
      ghost var past := checkpoints.git.work.Past();
      var refusal := CheckEdit(path, edit, description);
      if refusal.Some? {
        NothingDone(s0, r0, e0, project, session, operation, c, description);
        UntouchedBody(past.moves, s0, project, session, c, description);
        ExtendsSelf(r0);
        return Err(refusal.value);
      }
      var begun := Begin(project, session, operation, c);
      ghost var s1, r1, e1 := checkpoints.database.Contents(), checkpoints.git.work.repo, checkpoints.git.work.effects;
      ghost var script, undisturbed := checkpoints.git.work.script, old(checkpoints.git.work.script) == [];
      if begun.Err? {
        NotBegun(checkpoints.git.work.origin, checkpoints.git.work.world, past, checkpoints.git.work.Past(), s0, r0,
                 begun.error, undisturbed, project, session, operation, c, description);
        return Err(begun.error);
      }
      var row, mode := begun.value.0, begun.value.1;
      if undisturbed {
        ModeEarned(s0, s1, r0, r1, project, session, operation, c, mode);
        OpenedReady(s1, r0, r1, project, session, c, row, mode, description);
      }
      var committed := WriteEdit(path, edit, description, row, mode, session, disk);
      ghost var r2 := checkpoints.git.work.repo;
      r := Finish(c, row, committed);
      Concluded(checkpoints.git.work.origin, checkpoints.git.work.world, past, checkpoints.git.work.Past(), s0, r0, s1, r1,
                e1, script, undisturbed, r2, checkpoints.database.Contents(), [path], mode, committed,
                Grace(mode, 5), r, project, session, operation, c, row, description);
      if undisturbed && committed.Ok? {
        Written(r0, r1, r2, committed.value, row.head, path, edit);
        if HeadOf(r2) != HeadOf(r0) { Rewritten(r0, r2, committed.value, path, edit, r1.work); }
      }
    }

    /** The checks after the checkpoint, the bytes to write, and the Git mutation. */
    method WriteEdit(path: Path, edit: Edit, description: string, row: S.Checkpoint, mode: CommitMode, session: Id,
                     disk: Disk)
      returns (committed: Result<CommitId, ErrorCode>)
      requires checkpoints.git.work.Valid()
      modifies checkpoints.git.work
      ensures checkpoints.git.work.Valid() && Extends(old(checkpoints.git.work.repo), checkpoints.git.work.repo)
      ensures old(checkpoints.git.work.trace) <= checkpoints.git.work.trace
      ensures old(checkpoints.git.work.script) == [] ==> checkpoints.git.work.script == []
      ensures MutationOutcome(old(checkpoints.git.work.repo), old(checkpoints.git.work.script),
                              old(checkpoints.git.work.effects), checkpoints.git.work.repo,
                              checkpoints.git.work.effects, committed,
                              [path], mode, WipMessage(description, session), row.head, row.branch, Grace(mode, 5))
      ensures old(checkpoints.git.work.script) == [] && committed.Ok? && committed.value != row.head ==>
                var after := Lookup(TreeOf(checkpoints.git.work.repo, committed.value), path);
                after.Some? && Performed(edit, Lookup(old(checkpoints.git.work.repo).work, path), after.value)
      ensures var was := old(checkpoints.git.work.repo);
              TargetFits(edit, path, was.work) ==>
                && (!Acceptable(edit, Lookup(was.work, path)) ==> committed == Err(Conflict))
                && (Acceptable(edit, Lookup(was.work, path)) && !ValidArguments(mode, description, session) ==>
                      committed == Err(InvalidRequest))
                && ((&& old(checkpoints.git.work.script) == [] && Acceptable(edit, Lookup(was.work, path))
                     && Ready(was, mode, description, session, row.head, row.branch)) ==>
                      if path in was.work && !disk.readable then committed == Err(BackendUnavailable)
                      else if disk.writable then committed.Ok? else committed.Ok? || committed.error == UnknownSideEffect)
      ensures var was, now := old(checkpoints.git.work.repo), checkpoints.git.work.repo;
              (&& old(checkpoints.git.work.script) == [] && committed.Ok?
               && Ready(was, mode, description, session, row.head, row.branch)) ==>
                && path in now.work && now.work == was.work[path := now.work[path]]
                && Performed(edit, Lookup(was.work, path), now.work[path])
                && (committed.value == row.head <==>
                      Lookup(was.work, path) == Some(now.work[path]) || !SeesChange(was, path, now.work[path]))
    {
      hide Extends;
      hide Accounted;
      hide WellFormed;
      hide MutationOutcome;
      hide Performed;
      hide Acceptable;
      hide Prepare;
      hide Ready;
      ghost var r0, e0 := checkpoints.git.work.repo, checkpoints.git.work.effects;
      ExtendsSelf(r0);
      var refusal := TargetError(edit);
      NoMutation(r0, checkpoints.git.work.script, e0, refusal, [path], mode,
                 WipMessage(description, session), row.head, row.branch, Grace(mode, 5));
      if !TargetFits(edit, path, checkpoints.git.work.repo.work) { return Err(refusal); }
      PreparedAsAsked(edit, Lookup(r0.work, path));
      var content := Prepare(edit, Lookup(checkpoints.git.work.repo.work, path));
      if content.Err? {
        NoMutation(r0, checkpoints.git.work.script, e0, content.error, [path], mode,
                   WipMessage(description, session), row.head, row.branch, Grace(mode, 5));
        return Err(content.error);
      }
      ReadyNext(r0, mode, description, session, row.head, row.branch);
      committed := checkpoints.git.CommitFileBytes(path, content.value, row.head, description,
                                                   Some(!edit.NewFile?), mode, session, row.branch, disk);
    }

    /** The checks of a move before its checkpoint. */
    method CheckMove(source: Path, destination: Path, description: string) returns (refusal: Option<ErrorCode>)
      ensures var work := checkpoints.git.work.repo.work;
              refusal == if !(1 <= |description| <= 500) then Some(InvalidRequest)
                         else if IsSensitive(source) || IsSensitive(destination) then Some(SensitivePath)
                         else if source == destination then Some(InvalidRequest)
                         else if source !in work then Some(FileNotFound)
                         else if destination in work || IsDirectory(work, destination) then Some(Conflict)
                         else None
    {
      if |description| == 0 || |description| > 500 { return Some(InvalidRequest); }
      if IsSensitive(source) || IsSensitive(destination) { return Some(SensitivePath); }
      if source == destination { return Some(InvalidRequest); }
      var work := checkpoints.git.work.repo.work;
      if source !in work { return Some(FileNotFound); }
      if destination in work || IsDirectory(work, destination) { return Some(Conflict); }
      return None;
    }

    /** Moves one tracked file, under the same promises; its refusals are given with their codes, and undisturbed
        there are no others. */
    method MoveFile(project: Id, session: Id, operation: Id, c: Id, source: Path, destination: Path, description: string)
      returns (r: Result<S.Checkpoint, ErrorCode>)
      requires checkpoints.Valid()
      modifies checkpoints.database, checkpoints.git.work
      ensures checkpoints.Valid() && Extends(old(checkpoints.git.work.repo), checkpoints.git.work.repo)
      ensures old(checkpoints.git.work.trace) <= checkpoints.git.work.trace
      ensures BodyOutcome(old(checkpoints.database.Contents()), old(checkpoints.git.work.effects),
                          checkpoints.database.Contents(), checkpoints.git.work.effects, r,
                          project, session, operation, c, description)
      ensures BodyMoves(old(checkpoints.database.Contents()), old(checkpoints.git.work.trace),
                        checkpoints.database.Contents(), checkpoints.git.work.trace, r,
                        project, session, c, description)
      ensures old(checkpoints.git.work.script) == [] && ValidBranch(BranchName(old(checkpoints.git.work.repo))) ==>
                && BodyStep(old(checkpoints.database.Contents()), old(checkpoints.git.work.repo),
                            checkpoints.database.Contents(), checkpoints.git.work.repo,
                            project, session, operation, c, description)
                && (HeadOf(checkpoints.git.work.repo) != HeadOf(old(checkpoints.git.work.repo)) ==> r.Ok?)
      ensures r.Ok? ==> c in checkpoints.database.checkpoints && checkpoints.database.checkpoints[c] == r.value
      ensures old(checkpoints.git.work.script) == []
              && HeadOf(checkpoints.git.work.repo) != HeadOf(old(checkpoints.git.work.repo)) ==>
                var before := HeadTree(old(checkpoints.git.work.repo));
                && source in before && destination !in before
                && HeadTree(checkpoints.git.work.repo) == (before - {source})[destination := before[source]]
      ensures !(1 <= |description| <= 500) ==> r == Err(InvalidRequest)
      ensures 1 <= |description| <= 500 && (IsSensitive(source) || IsSensitive(destination)) ==> r == Err(SensitivePath)
      ensures var work := old(checkpoints.git.work.repo).work;
              1 <= |description| <= 500 && !IsSensitive(source) && !IsSensitive(destination) ==>
                && (source == destination ==> r == Err(InvalidRequest))
                && (source != destination && source !in work ==> r == Err(FileNotFound))
                && (source != destination && source in work && (destination in work || IsDirectory(work, destination)) ==>
                      r == Err(Conflict))
      ensures var s, was := old(checkpoints.database.Contents()), old(checkpoints.git.work.repo);
              && old(checkpoints.git.work.script) == [] && 1 <= |description| <= 500
              && !IsSensitive(source) && !IsSensitive(destination) && source != destination && source in was.work
              && destination !in was.work && !IsDirectory(was.work, destination) ==>
                if !Opens(s, was, branchAllowed, operation, c) then r == Err(OpeningError(was, branchAllowed))
                else if source !in HeadTree(was) then r == Err(Conflict)
                else if !ValidArguments(EarnedMode(s, was, project, session), description, session) then
                  r == Err(InvalidRequest)
                else if ValidBranch(BranchName(was)) then r.Ok? else r == Err(UnknownSideEffect)
    {
      hide Extends;
      hide Accounted;
      hide WellFormed;
      hide S.Consistent;
      hide BodyOutcome;
      hide BodyMoves;
      hide BodyStep;
      hide MutationOutcome;
      hide Opened;
      hide Finalized;
      hide Reviewable;
      hide AmendEvidence;
      hide OnlyRefs;
      hide TipsKept;
      hide ChangedPaths;
      hide IsSensitive;
      hide Ready;
      hide EarnedMode;
      hide ValidArguments;
      hide ValidBranch;
      hide Opens;
      hide OpeningError;
      hide QuietCommit;
      hide WipMessage;
      ghost var s0, r0, e0 := checkpoints.database.Contents(), checkpoints.git.work.repo, checkpoints.git.work.effects;
      ghost var past := checkpoints.git.work.Past();
      var refusal := CheckMove(source, destination, description);
      if refusal.Some? {
        NothingDone(s0, r0, e0, project, session, operation, c, description);
        UntouchedBody(past.moves, s0, project, session, c, description);
        ExtendsSelf(r0);
        return Err(refusal.value);
      }
      var begun := Begin(project, session, operation, c);
      ghost var s1, r1, e1 := checkpoints.database.Contents(), checkpoints.git.work.repo, checkpoints.git.work.effects;
      ghost var script, undisturbed := checkpoints.git.work.script, old(checkpoints.git.work.script) == [];
      if begun.Err? {
        NotBegun(checkpoints.git.work.origin, checkpoints.git.work.world, past, checkpoints.git.work.Past(), s0, r0,
                 begun.error, undisturbed, project, session, operation, c, description);
        return Err(begun.error);
      }
      var row, mode := begun.value.0, begun.value.1;
      if undisturbed {
        ModeEarned(s0, s1, r0, r1, project, session, operation, c, mode);
        OpenedReady(s1, r0, r1, project, session, c, row, mode, description);
      }
      var committed := MoveTracked(source, destination, description, row, mode, session);
      ghost var r2 := checkpoints.git.work.repo;
      r := Finish(c, row, committed);
      Concluded(checkpoints.git.work.origin, checkpoints.git.work.world, past, checkpoints.git.work.Past(), s0, r0, s1, r1,
                e1, script, undisturbed, r2, checkpoints.database.Contents(), [source, destination], mode, committed,
                Grace(mode, 6), r, project, session, operation, c, row, description);
    }

    /** The checks after the checkpoint, and the Git mutation. */
    method MoveTracked(source: Path, destination: Path, description: string, row: S.Checkpoint, mode: CommitMode, session: Id)
      returns (committed: Result<CommitId, ErrorCode>)
      requires checkpoints.git.work.Valid()
      modifies checkpoints.git.work
      ensures checkpoints.git.work.Valid() && Extends(old(checkpoints.git.work.repo), checkpoints.git.work.repo)
      ensures old(checkpoints.git.work.trace) <= checkpoints.git.work.trace
      ensures old(checkpoints.git.work.script) == [] ==> checkpoints.git.work.script == []
      ensures MutationOutcome(old(checkpoints.git.work.repo), old(checkpoints.git.work.script),
                              old(checkpoints.git.work.effects), checkpoints.git.work.repo,
                              checkpoints.git.work.effects, committed,
                              [source, destination], mode, WipMessage(description, session), row.head, row.branch, Grace(mode, 6))
      ensures old(checkpoints.git.work.script) == [] && committed.Ok? ==>
                var before := TreeOf(checkpoints.git.work.repo, row.head);
                && source in before && destination !in before
                && TreeOf(checkpoints.git.work.repo, committed.value)
                   == (before - {source})[destination := before[source]]
      ensures var was := old(checkpoints.git.work.repo);
              var refusal := MoveRefusal(row.before.files, was.work, source, destination);
              if refusal.Some? then committed == Err(refusal.value)
              else if !ValidArguments(mode, description, session) then committed == Err(InvalidRequest)
              else (&& old(checkpoints.git.work.script) == [] && MovePath(was, source, destination).Some?
                    && source != destination && Ready(was, mode, description, session, row.head, row.branch)) ==> committed.Ok?
    {
      hide Extends;
      hide Accounted;
      hide WellFormed;
      hide MutationOutcome;
      hide Ready;
      hide Checks;
      hide Passes;
      hide Amends;
      hide CleanOn;
      hide Played;
      hide Apply;
      hide ValidArguments;
      hide MovePath;
      ghost var was := checkpoints.git.work.repo;
      ExtendsSelf(was);
      var refusal := MoveRefusal(row.before.files, checkpoints.git.work.repo.work, source, destination);
      if refusal.Some? {
        NoMutation(checkpoints.git.work.repo, checkpoints.git.work.script, checkpoints.git.work.effects, refusal.value,
                   [source, destination], mode, WipMessage(description, session), row.head, row.branch, Grace(mode, 6));
        return Err(refusal.value);
      }
      if Ready(was, mode, description, session, row.head, row.branch) && MovePath(was, source, destination).Some?
         && source != destination
      {
        MoveGoesThrough(was, source, destination, mode, description, session, row.head, row.branch);
      }
      committed := checkpoints.git.MoveTrackedFile(source, destination, row.head, description, mode, session, row.branch);
    }

    /** The checks of a deletion before its checkpoint. */
    method CheckDelete(path: Path, description: string) returns (refusal: Option<ErrorCode>)
      ensures refusal == if !(1 <= |description| <= 500) then Some(InvalidRequest)
                         else if IsSensitive(path) then Some(SensitivePath)
                         else if path !in checkpoints.git.work.repo.work then Some(FileNotFound)
                         else None
    {
      if |description| == 0 || |description| > 500 { return Some(InvalidRequest); }
      if IsSensitive(path) { return Some(SensitivePath); }
      if path !in checkpoints.git.work.repo.work { return Some(FileNotFound); }
      return None;
    }

    /** Deletes one tracked file, under the same promises; its refusals are given with their codes, and undisturbed
        there are no others. */
    method DeleteFile(project: Id, session: Id, operation: Id, c: Id, path: Path, description: string)
      returns (r: Result<S.Checkpoint, ErrorCode>)
      requires checkpoints.Valid()
      modifies checkpoints.database, checkpoints.git.work
      ensures checkpoints.Valid() && Extends(old(checkpoints.git.work.repo), checkpoints.git.work.repo)
      ensures old(checkpoints.git.work.trace) <= checkpoints.git.work.trace
      ensures BodyOutcome(old(checkpoints.database.Contents()), old(checkpoints.git.work.effects),
                          checkpoints.database.Contents(), checkpoints.git.work.effects, r,
                          project, session, operation, c, description)
      ensures BodyMoves(old(checkpoints.database.Contents()), old(checkpoints.git.work.trace),
                        checkpoints.database.Contents(), checkpoints.git.work.trace, r,
                        project, session, c, description)
      ensures old(checkpoints.git.work.script) == [] && ValidBranch(BranchName(old(checkpoints.git.work.repo))) ==>
                && BodyStep(old(checkpoints.database.Contents()), old(checkpoints.git.work.repo),
                            checkpoints.database.Contents(), checkpoints.git.work.repo,
                            project, session, operation, c, description)
                && (HeadOf(checkpoints.git.work.repo) != HeadOf(old(checkpoints.git.work.repo)) ==> r.Ok?)
      ensures r.Ok? ==> c in checkpoints.database.checkpoints && checkpoints.database.checkpoints[c] == r.value
      ensures old(checkpoints.git.work.script) == []
              && HeadOf(checkpoints.git.work.repo) != HeadOf(old(checkpoints.git.work.repo)) ==>
                HeadTree(checkpoints.git.work.repo) == HeadTree(old(checkpoints.git.work.repo)) - {path}
      ensures !(1 <= |description| <= 500) ==> r == Err(InvalidRequest)
      ensures 1 <= |description| <= 500 && IsSensitive(path) ==> r == Err(SensitivePath)
      ensures 1 <= |description| <= 500 && !IsSensitive(path) && path !in old(checkpoints.git.work.repo).work ==>
                r == Err(FileNotFound)
      ensures var s, was := old(checkpoints.database.Contents()), old(checkpoints.git.work.repo);
              && old(checkpoints.git.work.script) == [] && 1 <= |description| <= 500 && !IsSensitive(path)
              && path in was.work ==>
                if !Opens(s, was, branchAllowed, operation, c) then r == Err(OpeningError(was, branchAllowed))
                else if path !in HeadTree(was) then r == Err(Conflict)
                else if !ValidArguments(EarnedMode(s, was, project, session), description, session) then
                  r == Err(InvalidRequest)
                else if ValidBranch(BranchName(was)) then r.Ok? else r == Err(UnknownSideEffect)
    {
      hide Extends;
      hide Accounted;
      hide WellFormed;
      hide S.Consistent;
      hide BodyOutcome;
      hide BodyMoves;
      hide BodyStep;
      hide MutationOutcome;
      hide Opened;
      hide Finalized;
      hide Reviewable;
      hide AmendEvidence;
      hide OnlyRefs;
      hide TipsKept;
      hide ChangedPaths;
      hide IsSensitive;
      hide Ready;
      hide EarnedMode;
      hide ValidArguments;
      hide ValidBranch;
      hide Opens;
      hide OpeningError;
      hide QuietCommit;
      hide WipMessage;
      ghost var s0, r0, e0 := checkpoints.database.Contents(), checkpoints.git.work.repo, checkpoints.git.work.effects;
      ghost var past := checkpoints.git.work.Past();
      var refusal := CheckDelete(path, description);
      if refusal.Some? {
        NothingDone(s0, r0, e0, project, session, operation, c, description);
        UntouchedBody(past.moves, s0, project, session, c, description);
        ExtendsSelf(r0);
        return Err(refusal.value);
      }
      var begun := Begin(project, session, operation, c);
      ghost var s1, r1, e1 := checkpoints.database.Contents(), checkpoints.git.work.repo, checkpoints.git.work.effects;
      ghost var script, undisturbed := checkpoints.git.work.script, old(checkpoints.git.work.script) == [];
      if begun.Err? {
        NotBegun(checkpoints.git.work.origin, checkpoints.git.work.world, past, checkpoints.git.work.Past(), s0, r0,
                 begun.error, undisturbed, project, session, operation, c, description);
        return Err(begun.error);
      }
      var row, mode := begun.value.0, begun.value.1;
      if undisturbed {
        ModeEarned(s0, s1, r0, r1, project, session, operation, c, mode);
        OpenedReady(s1, r0, r1, project, session, c, row, mode, description);
      }
      var committed := DeleteTracked(path, description, row, mode, session);
      ghost var r2 := checkpoints.git.work.repo;
      r := Finish(c, row, committed);
      Concluded(checkpoints.git.work.origin, checkpoints.git.work.world, past, checkpoints.git.work.Past(), s0, r0, s1, r1,
                e1, script, undisturbed, r2, checkpoints.database.Contents(), [path], mode, committed,
                Grace(mode, 6), r, project, session, operation, c, row, description);
    }

    /** The checks after the checkpoint, and the Git mutation. */
    method DeleteTracked(path: Path, description: string, row: S.Checkpoint, mode: CommitMode, session: Id)
      returns (committed: Result<CommitId, ErrorCode>)
      requires checkpoints.git.work.Valid()
      modifies checkpoints.git.work
      ensures checkpoints.git.work.Valid() && Extends(old(checkpoints.git.work.repo), checkpoints.git.work.repo)
      ensures old(checkpoints.git.work.trace) <= checkpoints.git.work.trace
      ensures old(checkpoints.git.work.script) == [] ==> checkpoints.git.work.script == []
      ensures MutationOutcome(old(checkpoints.git.work.repo), old(checkpoints.git.work.script),
                              old(checkpoints.git.work.effects), checkpoints.git.work.repo,
                              checkpoints.git.work.effects, committed,
                              [path], mode, WipMessage(description, session), row.head, row.branch, Grace(mode, 6))
      ensures old(checkpoints.git.work.script) == [] && committed.Ok? ==>
                TreeOf(checkpoints.git.work.repo, committed.value)
                == TreeOf(checkpoints.git.work.repo, row.head) - {path}
      ensures var was := old(checkpoints.git.work.repo);
              if path !in row.before.files then committed == Err(Conflict)
              else if path !in was.work then committed == Err(FileNotFound)
              else if !ValidArguments(mode, description, session) then committed == Err(InvalidRequest)
              else (&& old(checkpoints.git.work.script) == [] && RemovePath(was, path).Some?
                    && Ready(was, mode, description, session, row.head, row.branch)) ==> committed.Ok?
    {
      hide Extends;
      hide Accounted;
      hide WellFormed;
      hide MutationOutcome;
      hide Ready;
      hide Checks;
      hide Passes;
      hide Amends;
      hide CleanOn;
      hide Played;
      hide Apply;
      hide ValidArguments;
      hide RemovePath;
      ghost var was := checkpoints.git.work.repo;
      ExtendsSelf(was);
      var refusal := if path !in row.before.files then Some(Conflict)
        else if path !in checkpoints.git.work.repo.work then Some(FileNotFound) else None;
      if refusal.Some? {
        NoMutation(checkpoints.git.work.repo, checkpoints.git.work.script, checkpoints.git.work.effects, refusal.value,
                   [path], mode, WipMessage(description, session), row.head, row.branch, Grace(mode, 6));
        return Err(refusal.value);
      }
      if Ready(was, mode, description, session, row.head, row.branch) && RemovePath(was, path).Some? {
        RemovalGoesThrough(was, path, mode, description, session, row.head, row.branch);
      }
      committed := checkpoints.git.DeleteTrackedFile(path, row.head, description, mode, session, row.branch);
    }
  }
}
