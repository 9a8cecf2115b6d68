/** `checkpoint_service.py`: checkpoints are a Bridge-owned ref and a ledger row; an amend is chosen
    only when ledger, footer and refs agree. */
module CheckpointServices {
  import opened Basics
  import opened Repository
  import opened Footers
  import opened ReplayKeys
  import opened Workspaces
  import opened GitGuards
  import opened DatabaseStore
  import S = StoreModel

  /** The checkpoint ref named `head` in every state from `from` on. */
  ghost predicate RefKept(seen: seq<Repo>, from: nat, c: Id, head: CommitId) {
    forall i :: from <= i < |seen| ==> Lookup(seen[i].refs, CheckpointRef(c)) == Some(head)
  }

  /** The ledger proves that the session owns the tip. */
  ghost predicate ProvenTip(s: S.Store, project: Id, session: Id, branch: string, head: CommitId) {
    exists w :: S.ProvesSessionWip(s, w, project, session, branch, head)
  }

  /** The ledger and the commit itself agree that the tip is the session's. */
  ghost predicate AmendEvidence(s: S.Store, r: Repo, project: Id, session: Id, checkpoint: S.Checkpoint) {
    && ProvenTip(s, project, session, checkpoint.branch, checkpoint.head)
    && OwnedTip(r, checkpoint.head, session)
  }

  /** The commit carries exactly this session's footer. */
  ghost predicate OwnedTip(r: Repo, head: CommitId, session: Id) {
    head in r.commits && ParseFooter(r.commits[head].message) == Some(session)
  }

  /** Undisturbed, a checkpoint adds its ref to a clean repository and records what that was. */
  ghost predicate Captured(r: Repo, q: Repo, c: Id, snapshot: S.Snapshot) {
    && HeadOf(r) == Some(snapshot.head) && ChangedPaths(r) == {}
    && snapshot == SnapshotOf(r)
    && q == r.(refs := r.refs[CheckpointRef(c) := snapshot.head])
  }

  lemma CapturedStaysClean(r: Repo, q: Repo, c: Id, snapshot: S.Snapshot)
    requires Captured(r, q, c, snapshot)
    ensures ChangedPaths(q) == {} && HeadOf(q) == Some(snapshot.head) && BranchName(q) == snapshot.branch
  {
    assert HeadTree(q) == HeadTree(r);
    forall p ensures IsChanged(q, p) <==> IsChanged(r, p) {}
    assert ChangedPaths(q) == ChangedPaths(r);
  }

  predicate ValidBranch(branch: string) {
    branch != "" && forall k :: 0 <= k < |branch| ==> branch[k] !in "\0\r\n"
  }

  /** Undisturbed, a finalization against `head` succeeds. */
  predicate Reviewable(r: Repo, c: Id, head: CommitId, branch: string) {
    && HeadOf(r) == Some(head) && BranchName(r) == branch
    && CheckpointRef(c) in r.refs && head in r.commits
    && NoneSensitive(ChangedBetween(RefTree(r, c), TreeOf(r, head)))
  }

  /** What the eleven commands of a finalization saw: branch and head as expected at the first two,
      names at the fifth, the diff at the seventh, branch and head again at the eighth and ninth. The
      dirty flag and the file hashes come from the last two, which nothing ties to `head`. */
  ghost predicate Reviewed(seen: seq<Repo>, n: nat, c: Id, head: CommitId, branch: string,
                           after: S.Snapshot, diff: S.Digest)
  {
    && |seen| == n + 11
    && BranchName(seen[n]) == branch && HeadOf(seen[n + 1]) == Some(head)
    && CheckpointRef(c) in seen[n + 4].refs && head in seen[n + 4].commits
    && after.changed == ChangedBetween(RefTree(seen[n + 4], c), TreeOf(seen[n + 4], head))
    && CheckpointRef(c) in seen[n + 6].refs && head in seen[n + 6].commits
    && diff == S.Digest.Digest(RefTree(seen[n + 6], c), TreeOf(seen[n + 6], head))
    && after.branch == branch == BranchName(seen[n + 7])
    && after.head == head && HeadOf(seen[n + 8]) == Some(head)
    && after.dirty == (ChangedPaths(seen[n + 9]) != {})
    && after.files == HeadTree(seen[n + 10])
  }

  /** A snapshot shows the expected head and branch. */
  predicate Expected(r: Repo, script: seq<Interference>, head: CommitId, branch: string) {
    Snaps(r, script) && BranchName(Played(r, script, 1)) == branch && HeadOf(Played(r, script, 2)) == Some(head)
  }

  /** Names, then the diff, go through. */
  predicate Compares(r: Repo, script: seq<Interference>, c: Id, head: CommitId) {
    Names(r, script, c, head) && Diffs(Reached(r, script), Drop(script, 1), c, head)
  }

  /** The repository after a comparison. */
  function Compared(r: Repo, script: seq<Interference>): Repo {
    Reached(Reached(Reached(r, script), Drop(script, 1)), Drop(Drop(script, 1), 1))
  }

  /** A whole review goes through: the expected snapshot before and after the comparison. */
  predicate Reviews(r: Repo, script: seq<Interference>, c: Id, head: CommitId, branch: string) {
    var second, rest := Played(r, script, 4), Drop(script, 4);
    && Expected(r, script, head, branch) && Compares(second, rest, c, head)
    && Expected(Compared(second, rest), Drop(rest, 3), head, branch)
  }

  /** The repository that the last of these commands sees. */
  function FinallySeen(r: Repo, script: seq<Interference>): Repo {
    Played(Compared(Played(r, script, 4), Drop(script, 4)), Drop(Drop(script, 4), 3), 4)
  }

  lemma OneFixedPair(seen: seq<Repo>, n: nat, r: Repo, c: Id, base: CommitId, head: CommitId, branch: string,
                     after: S.Snapshot, diff: S.Digest)
    requires Reviewed(seen, n, c, head, branch, after, diff)
    requires forall i :: 0 <= i < |seen| ==> Extends(seen[i], r)
    ensures RefKept(seen, n, c, base) ==>
              && after.changed == ChangedBetween(TreeOf(r, base), TreeOf(r, head))
              && diff == S.Digest.Digest(TreeOf(r, base), TreeOf(r, head))
  {
    hide ChangedBetween;
    hide ChangedPaths;
    if RefKept(seen, n, c, base) {
      SameTree(seen[n + 4], r, c, base, head);
      SameTree(seen[n + 6], r, c, base, head);
    }
  }

  lemma SameTree(q: Repo, r: Repo, c: Id, base: CommitId, head: CommitId)
    requires Extends(q, r) && head in q.commits
    requires Lookup(q.refs, CheckpointRef(c)) == Some(base)
    ensures RefTree(q, c) == TreeOf(r, base) && TreeOf(q, head) == TreeOf(r, head)
  {
  }

  class CheckpointService {
    const database: Database
    const git: GitGuard

    constructor (database: Database, git: GitGuard)
      ensures this.database == database && this.git == git
    {
      this.database, this.git := database, git;
    }

    ghost predicate Valid()
      reads database, git.work
    {
      database.Valid() && git.work.Valid()
    }

    /** A checkpoint of a clean workspace. A failure records nothing. */
    method Create(c: Id, project: Id, session: Option<Id>, operation: Option<Id>, kind: S.CheckpointKind)
      returns (r: Result<S.Checkpoint, ErrorCode>)
      requires Valid()
      modifies database, git.work
      ensures Valid() && Extends(old(git.work.repo), git.work.repo)
      ensures old(git.work.trace) <= git.work.trace
      ensures OnlyRefs(old(git.work.effects), git.work.effects, c)
      ensures r.Err? ==> database.Contents() == old(database.Contents()) && r.error != UnknownSideEffect
      ensures r.Ok? ==>
                && c !in old(database.checkpoints) && S.CreateCheckpoint(old(database.Contents()), c, r.value).Done?
                && database.Contents() == S.CreateCheckpoint(old(database.Contents()), c, r.value).store
                && database.checkpoints[c] == r.value
                && r.value.project == project && r.value.session == session && r.value.operation == operation
                && r.value.kind == kind && r.value.status == S.Recorded && r.value.after.None?
                && r.value.head == r.value.before.head && r.value.branch == r.value.before.branch
                && !r.value.before.dirty
                && r.value.head in git.work.repo.commits
                && Lookup(git.work.repo.refs, CheckpointRef(c)) == Some(r.value.head)
      ensures old(git.work.script) == [] ==>
                && git.work.script == [] && TipsKept(old(git.work.repo), git.work.repo, c)
                && (r.Ok? ==> Captured(old(git.work.repo), git.work.repo, c, r.value.before))
                && (r.Ok? <==> && HeadOf(old(git.work.repo)).Some? && ChangedPaths(old(git.work.repo)) == {}
                               && c !in old(database.checkpoints)
                               && (operation.Some? ==> operation.value in old(database.operations)))
      ensures old(git.work.script) == [] && r.Err? ==>
                r.error == if HeadOf(old(git.work.repo)).None? then BackendUnavailable
                           else if ChangedPaths(old(git.work.repo)) != {} then WorkspaceDirty else StoreFailure
    {
      hide Extends;
      hide Accounted;
      hide WellFormed;
      hide ChangedPaths;
      hide S.Consistent;
      ghost var r0 := git.work.repo;
      var snapshot := Capture(c);
      ghost var r1 := git.work.repo;
      if snapshot.Err? { return Err(snapshot.error); }
      var row := S.Checkpoint.Checkpoint(project, session, operation, kind, snapshot.value.branch, snapshot.value.head,
                                         snapshot.value, None, None, S.Recorded);
      var failure := database.CreateCheckpoint(c, row);
      if failure.Some? {
        git.DeleteCheckpointRef(c);
        ExtendsTransitive(r0, r1, git.work.repo);
        return Err(StoreFailure);
      }
      return Ok(row);
    }

    /** The Git half of `Create`: a snapshot of a clean workspace, and a ref on its head. */
    method Capture(c: Id) returns (r: Result<S.Snapshot, ErrorCode>)
      requires git.work.Valid()
      modifies git.work
      ensures git.work.Valid() && Extends(old(git.work.repo), git.work.repo)
      ensures old(git.work.trace) <= git.work.trace
      ensures OnlyRefs(old(git.work.effects), git.work.effects, c)
      ensures r.Err? ==> r.error != UnknownSideEffect
      ensures r.Ok? ==>
                && !r.value.dirty && r.value.head in git.work.repo.commits
                && Lookup(git.work.repo.refs, CheckpointRef(c)) == Some(r.value.head)
      ensures old(git.work.script) == [] ==>
                && git.work.script == [] && TipsKept(old(git.work.repo), git.work.repo, c)
                && (r.Ok? ==> Captured(old(git.work.repo), git.work.repo, c, r.value))
                && (r.Ok? <==> HeadOf(old(git.work.repo)).Some? && ChangedPaths(old(git.work.repo)) == {})
      ensures old(git.work.script) == [] && r.Err? ==>
                r.error == if HeadOf(old(git.work.repo)).None? then BackendUnavailable else WorkspaceDirty
    {
      hide Extends;
      hide Accounted;
      hide WellFormed;
      hide ChangedPaths;
      ghost var r0 := git.work.repo;
      ExtendsSelf(r0);
      var fate := git.work.Await();
      ghost var r1 := git.work.repo;
      if fate != Completes { return Err(BackendUnavailable); }
      var snapshot := git.Snapshot();
      ghost var r2 := git.work.repo;
      ExtendsTransitive(r0, r1, r2);
      if snapshot.Err? { return Err(snapshot.error); }
      if snapshot.value.dirty { return Err(WorkspaceDirty); }
      HeadIsCommit(r2);
      var ok := git.SetCheckpointRef(c, snapshot.value.head);
      ExtendsTransitive(r0, r2, git.work.repo);
      return if ok then snapshot else Err(BackendUnavailable);
    }

    /** Records what lies between the checkpoint and the expected head. On success HEAD and branch
        were as expected both before and after the two were compared; while the ref is left alone,
        the names and the diff describe one fixed pair of commits, whatever HEAD did in between. */
    method Finalize(c: Id, checkpoint: S.Checkpoint, head: CommitId, branch: string)
      returns (r: Result<S.Checkpoint, ErrorCode>)
      requires Valid()
      modifies database, git.work
      ensures Valid() && Extends(old(git.work.repo), git.work.repo) && git.work.effects == old(git.work.effects)
      ensures old(git.work.trace) <= git.work.trace
      ensures old(git.work.seen) <= git.work.seen
      ensures r.Err? ==> database.Contents() == old(database.Contents())
      ensures r == Err(StoreFailure) ==> c !in old(database.checkpoints)
      ensures r.Ok? ==>
                && r.value.after.Some? && r.value.diffHash.Some?
                && var after, diff := r.value.after.value, r.value.diffHash.value;
                && Reviewed(git.work.seen, |old(git.work.seen)|, c, head, branch, after, diff)
                && S.FinalizeCheckpoint(old(database.Contents()), c, after, diff).Done?
                && database.Contents() == S.FinalizeCheckpoint(old(database.Contents()), c, after, diff).store
                && database.checkpoints[c] == r.value
                && (RefKept(git.work.seen, |old(git.work.seen)|, c, checkpoint.head) ==>
                      && after.changed == ChangedBetween(TreeOf(git.work.repo, checkpoint.head), TreeOf(git.work.repo, head))
                      && (forall p :: p in after.changed <==>
                            Lookup(TreeOf(git.work.repo, checkpoint.head), p) != Lookup(TreeOf(git.work.repo, head), p))
                      && diff == S.Digest.Digest(TreeOf(git.work.repo, checkpoint.head), TreeOf(git.work.repo, head)))
      ensures r.Ok? <==> ValidBranch(branch) && c in old(database.checkpoints)
                         && Reviews(old(git.work.repo), old(git.work.script), c, head, branch)
      ensures r.Ok? && |old(git.work.script)| <= 10 ==>
                && r.value.after.value.files == HeadTree(git.work.repo)
                && r.value.after.value.dirty == (ChangedPaths(git.work.repo) != {})
      ensures r.Ok? && |old(git.work.script)| <= 9 ==> HeadOf(git.work.repo) == Some(head)
      ensures r.Ok? ==> git.work.repo == FinallySeen(old(git.work.repo), old(git.work.script))
      ensures old(git.work.script) == [] ==>
                && git.work.repo == old(git.work.repo) && git.work.script == []
                && (r.Ok? <==> ValidBranch(branch) && Reviewable(git.work.repo, c, head, branch)
                               && c in old(database.checkpoints))
                && (r.Ok? ==> r.value.after.value.dirty == (ChangedPaths(git.work.repo) != {}))
    {
      hide Extends;
      hide Accounted;
      hide WellFormed;
      hide ChangedPaths;
      hide ChangedBetween;
      hide S.Consistent;
      ExtendsSelf(git.work.repo);
      if !ValidBranch(branch) { return Err(CheckpointInvalid); }
      var review := Review(c, head, branch);
      if review.Err? { return Err(review.error); }
      var after, diff := review.value.0, review.value.1;
      ChangedMeans(TreeOf(git.work.repo, checkpoint.head), TreeOf(git.work.repo, head));
      OneFixedPair(git.work.seen, |old(git.work.seen)|, git.work.repo, c, checkpoint.head, head, branch, after, diff);
      var failure := database.FinalizeCheckpoint(c, after, diff);
      if failure.Some? { return Err(StoreFailure); }
      return Ok(database.checkpoints[c]);
    }

    /** The Git half of `Finalize`: snapshot, names, diff, snapshot again. */
    method Review(c: Id, head: CommitId, branch: string) returns (r: Result<(S.Snapshot, S.Digest), ErrorCode>)
      requires git.work.Valid()
      modifies git.work
      ensures git.work.Valid() && Extends(old(git.work.repo), git.work.repo)
      ensures old(git.work.trace) <= git.work.trace
      ensures git.work.effects == old(git.work.effects) && old(git.work.seen) <= git.work.seen
      ensures r.Ok? ==> Reviewed(git.work.seen, |old(git.work.seen)|, c, head, branch, r.value.0, r.value.1)
      ensures r.Ok? <==> Reviews(old(git.work.repo), old(git.work.script), c, head, branch)
      ensures r.Ok? && |old(git.work.script)| <= 10 ==>
                r.value.0.files == HeadTree(git.work.repo) && r.value.0.dirty == (ChangedPaths(git.work.repo) != {})
      ensures r.Ok? && |old(git.work.script)| <= 9 ==> HeadOf(git.work.repo) == Some(head)
      ensures r.Ok? ==> git.work.repo == FinallySeen(old(git.work.repo), old(git.work.script))
      ensures r.Err? ==> r.error != StoreFailure
      ensures old(git.work.script) == [] ==> git.work.repo == old(git.work.repo) && git.work.script == []
      ensures old(git.work.script) == [] ==> (r.Ok? <==> Reviewable(git.work.repo, c, head, branch))
      ensures old(git.work.script) == [] && r.Ok? ==> r.value.0.dirty == (ChangedPaths(git.work.repo) != {})
    {
      hide Extends;
      hide Accounted;
      hide WellFormed;
      hide ChangedPaths;
      hide ChangedBetween;
      hide NoneSensitive;
      hide RefTree;
      hide Expected;
      hide Compares;
      hide Compared;
      hide Played;
      hide TreeOf;
      hide HeadTree;
      ghost var r0 := git.work.repo;
      var first := ExpectSnapshot(head, branch);
      ghost var r1 := git.work.repo;
      if first.Err? { return Err(first.error); }
      var comparison := Compare(c, head);
      ghost var r2 := git.work.repo;
      ExtendsTransitive(r0, r1, r2);
      if comparison.Err? { return Err(comparison.error); }
      var confirmed := ExpectSnapshot(head, branch);
      ExtendsTransitive(r0, r2, git.work.repo);
      if confirmed.Err? { return Err(confirmed.error); }
      return Ok((confirmed.value.(changed := comparison.value.0), comparison.value.1));
    }

    /** A snapshot that must show the expected head and branch. */
    method ExpectSnapshot(head: CommitId, branch: string) returns (r: Result<S.Snapshot, ErrorCode>)
      requires git.work.Valid()
      modifies git.work
      ensures git.work.Valid() && Extends(old(git.work.repo), git.work.repo)
      ensures old(git.work.trace) <= git.work.trace
      ensures git.work.effects == old(git.work.effects) && old(git.work.seen) <= git.work.seen
      ensures r.Err? ==> r.error != StoreFailure
      ensures var seen, n := git.work.seen, |old(git.work.seen)|;
              r.Ok? ==>
                && |seen| == n + 4
                && r.value.branch == branch == BranchName(seen[n])
                && r.value.head == head && HeadOf(seen[n + 1]) == Some(head)
                && r.value.dirty == (ChangedPaths(seen[n + 2]) != {}) && r.value.files == HeadTree(seen[n + 3])
      ensures r.Ok? <==> Expected(old(git.work.repo), old(git.work.script), head, branch)
      ensures r.Ok? ==> git.work.repo == Played(old(git.work.repo), old(git.work.script), 4)
      ensures r.Ok? ==> git.work.repo == git.work.seen[|old(git.work.seen)| + 3]
                        && git.work.script == Drop(old(git.work.script), 4)
      ensures r.Ok? && |old(git.work.script)| <= 3 ==> git.work.seen[|old(git.work.seen)| + 2] == git.work.repo
      ensures r.Ok? && |old(git.work.script)| <= 2 ==> HeadOf(git.work.repo) == Some(head)
      ensures old(git.work.script) == [] ==>
                && git.work.repo == old(git.work.repo)
                && (r.Ok? <==> HeadOf(git.work.repo) == Some(head) && BranchName(git.work.repo) == branch)
                && (r.Ok? ==> r.value.dirty == (ChangedPaths(git.work.repo) != {}))
      ensures old(git.work.script) == [] ==> git.work.script == []
    {
      hide Extends;
      hide Accounted;
      hide WellFormed;
      hide ChangedPaths;
      hide Snaps;
      hide Played;
      r := git.Snapshot();
      if r.Ok? && (r.value.head != head || r.value.branch != branch) { r := Err(CheckpointConflict); }
    }

    /** Names, then diff, of the two fixed commits. */
    method Compare(c: Id, head: CommitId) returns (r: Result<(set<Path>, S.Digest), ErrorCode>)
      requires git.work.Valid()
      modifies git.work
      ensures git.work.Valid() && Extends(old(git.work.repo), git.work.repo)
      ensures old(git.work.trace) <= git.work.trace
      ensures git.work.effects == old(git.work.effects) && old(git.work.seen) <= git.work.seen
      ensures r.Err? ==> r.error != StoreFailure
      ensures var seen, n := git.work.seen, |old(git.work.seen)|;
              r.Ok? ==>
                && |seen| == n + 3
                && CheckpointRef(c) in seen[n].refs && head in seen[n].commits
                && r.value.0 == ChangedBetween(RefTree(seen[n], c), TreeOf(seen[n], head))
                && CheckpointRef(c) in seen[n + 2].refs && head in seen[n + 2].commits
                && r.value.1 == S.Digest.Digest(RefTree(seen[n + 2], c), TreeOf(seen[n + 2], head))
      ensures r.Ok? <==> Compares(old(git.work.repo), old(git.work.script), c, head)
      ensures r.Ok? ==> git.work.repo == Compared(old(git.work.repo), old(git.work.script))
                        && git.work.script == Drop(old(git.work.script), 3)
      ensures old(git.work.script) == [] ==>
                && git.work.repo == old(git.work.repo) && git.work.script == []
                && (r.Ok? <==> CheckpointRef(c) in git.work.repo.refs && head in git.work.repo.commits
                               && NoneSensitive(ChangedBetween(RefTree(git.work.repo, c), TreeOf(git.work.repo, head))))
    {
      hide Extends;
      hide Accounted;
      hide WellFormed;
      hide ChangedBetween;
      hide NoneSensitive;
      hide RefTree;
      ghost var r0 := git.work.repo;
      var names := git.DiffNamesBetween(c, head);
      ghost var r1 := git.work.repo;
      if names.Err? { return Err(names.error); }
      var diff := git.DiffBetween(c, head);
      ExtendsTransitive(r0, r1, git.work.repo);
      if diff.Err? { return Err(diff.error); }
      return Ok((names.value, diff.value));
    }

    /** Amend only when the ledger, the footer and the refs all say that the tip is this session's
        alone; any doubt or failure falls back to a new commit. */
    method DetermineCommitMode(project: Id, session: Id, checkpoint: S.Checkpoint) returns (mode: CommitMode)
      requires git.work.Valid()
      modifies git.work
      ensures git.work.Valid() && Extends(old(git.work.repo), git.work.repo)
      ensures old(git.work.trace) <= git.work.trace
      ensures git.work.effects == old(git.work.effects)
      ensures mode == AmendSessionWip ==>
                AmendEvidence(database.Contents(), git.work.repo, project, session, checkpoint)
      ensures old(git.work.script) == [] ==>
                && git.work.repo == old(git.work.repo) && git.work.script == []
                && (mode == AmendSessionWip <==>
                      && session != "" && checkpoint.project == project && checkpoint.session == Some(session)
                      && checkpoint.kind == S.Mutation
                      && ChangedPaths(git.work.repo) == {} && BranchName(git.work.repo) == checkpoint.branch
                      && HeadOf(git.work.repo) == Some(checkpoint.head)
                      && AmendEvidence(database.Contents(), git.work.repo, project, session, checkpoint)
                      && Unshared(git.work.repo, checkpoint.head, checkpoint.branch))
    {
      hide Extends;
      hide Accounted;
      hide WellFormed;
      hide ChangedPaths;
      hide SharedRefs;
      hide Unshared;
      hide ProvenTip;
      hide OwnedTip;
      hide Shows;
      hide Played;
      hide States;
      hide S.Consistent;
      ghost var r0 := git.work.repo;
      ExtendsSelf(r0);
      if session == "" || checkpoint.project != project || checkpoint.session != Some(session)
         || checkpoint.kind != S.Mutation
      {
        return CommitMode.Create;
      }
      var current := git.work.Status();
      ghost var r1 := git.work.repo;
      if current.Err? || current.value.changed != {} { return CommitMode.Create; }
      if current.value.branch != checkpoint.branch || current.value.head != checkpoint.head { return CommitMode.Create; }
      var owned := OwnsTip(project, session, current.value.branch, current.value.head);
      ExtendsTransitive(r0, r1, git.work.repo);
      return if owned then AmendSessionWip else CommitMode.Create;
    }

    /** The ledger, the footer and the refs, in this order, about one tip. */
    method OwnsTip(project: Id, session: Id, branch: string, head: CommitId) returns (owned: bool)
      requires git.work.Valid()
      modifies git.work
      ensures git.work.Valid() && Extends(old(git.work.repo), git.work.repo)
      ensures old(git.work.trace) <= git.work.trace
      ensures git.work.effects == old(git.work.effects)
      ensures owned ==> ProvenTip(database.Contents(), project, session, branch, head)
                        && OwnedTip(git.work.repo, head, session)
      ensures old(git.work.script) == [] ==>
                && git.work.repo == old(git.work.repo) && git.work.script == []
                && (owned <==> ProvenTip(database.Contents(), project, session, branch, head)
                               && OwnedTip(git.work.repo, head, session) && Unshared(git.work.repo, head, branch))
    {
      hide Extends;
      hide Accounted;
      hide WellFormed;
      hide SharedRefs;
      hide Unshared;
      hide ParseFooter;
      hide S.ProvesSessionWip;
      hide S.Consistent;
      ghost var r0 := git.work.repo;
      ExtendsSelf(r0);
      var candidate := database.FindSessionWipCheckpoint(project, session, branch, head);
      if candidate.None? { return false; }
      var footer := git.work.ReadSessionFooter(head);
      ghost var r1 := git.work.repo;
      if footer.Err? || footer.value != Some(session) { return false; }
      var shared := git.work.SharedRefsContainingHead(head, branch);
      ExtendsTransitive(r0, r1, git.work.repo);
      ExtendsMeans(r1, git.work.repo);
      SharedByPath(git.work.repo, head, branch);
      return shared.Ok? && shared.value == {};
    }

    /** The ref still names the recorded commit. */
    method VerifyRef(c: Id, checkpoint: S.Checkpoint) returns (error: Option<ErrorCode>)
      requires git.work.Valid()
      modifies git.work
      ensures git.work.Valid() && Extends(old(git.work.repo), git.work.repo)
      ensures old(git.work.trace) <= git.work.trace
      ensures git.work.effects == old(git.work.effects)
      ensures error.Some? ==> error.value == CheckpointInvalid
      ensures error.None? ==> git.work.script == Drop(old(git.work.script), 1)
      ensures error.None? ==> Lookup(git.work.repo.refs, CheckpointRef(c)) == Some(checkpoint.head)
      ensures old(git.work.script) == [] ==>
                && git.work.repo == old(git.work.repo) && git.work.script == []
                && (error.None? <==> Lookup(git.work.repo.refs, CheckpointRef(c)) == Some(checkpoint.head))
    {
      var resolved := git.ResolveCheckpointRef(c);
      return if resolved == Some(checkpoint.head) then None else Some(CheckpointInvalid);
    }

    /** A checkpoint is only shown to the session of the project that made it. */
    method GetForSession(c: Id, project: Id, session: Id) returns (r: Result<S.Checkpoint, ErrorCode>)
      ensures r.Ok? <==> c in database.checkpoints && database.checkpoints[c].project == project
                         && database.checkpoints[c].session == Some(session)
      ensures r == if r.Ok? then Ok(database.checkpoints[c]) else Err(CheckpointNotFound)
    {
      if c !in database.checkpoints { return Err(CheckpointNotFound); }
      var row := database.checkpoints[c];
      if row.project != project || row.session != Some(session) { return Err(CheckpointNotFound); }
      return Ok(row);
    }
  }
}
