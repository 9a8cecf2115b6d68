/** `_restore_checkpoint_for_operation` of `mcp_server.py`: a compare-and-swap return to a checkpoint,
    with a safety checkpoint of what it leaves. */
module RestoreServices {
  import opened Basics
  import opened Repository
  import opened Workspaces
  import opened GitGuards
  import opened CheckpointServices
  import opened MutationModel
  import opened PathPolicy
  import S = StoreModel

  /** An undisturbed restore: the safety ref on the old HEAD, then a hard reset. */
  ghost predicate RestoredTo(r: Repo, q: Repo, safety: Id, target: CommitId) {
    HeadOf(r).Some? && target in r.commits && ChangedPaths(r) == {}
    && q == ResetHard(r.(refs := r.refs[CheckpointRef(safety) := HeadOf(r).value]), target)
  }

  /** Nothing untracked is in the way of the target's files. */
  predicate NoCollision(r: Repo, target: CommitId) {
    forall p :: p in r.work && p !in r.index ==> !InTheWay(p, TreeOf(r, target))
  }

  lemma ResetLands(r: Repo, c: CommitId)
    requires HeadOf(r).Some?
    ensures BranchName(ResetHard(r, c)) == BranchName(r) && HeadOf(ResetHard(r, c)) == Some(c)
    ensures HeadTree(ResetHard(r, c)) == ResetHard(r, c).index == TreeOf(r, c)
  {
  }

  /** A restore keeps the branch, moves HEAD to the target, leaves the workspace clean with the target's
      files, and keeps the old HEAD under the safety ref. A file system stays one: no file becomes a
      directory as well. */
  lemma RestoreArrives(r: Repo, q: Repo, safety: Id, target: CommitId)
    requires WellFormed(r) && RestoredTo(r, q, safety, target)
    ensures BranchName(q) == BranchName(r) && HeadOf(q) == Some(target) && ChangedPaths(q) == {}
    ensures forall p :: p in TreeOf(r, target) ==> p in q.work && q.work[p] == TreeOf(r, target)[p]
    ensures PrefixFree(r.work) && PrefixFree(TreeOf(r, target)) ==> PrefixFree(q.work)
    ensures Lookup(q.refs, CheckpointRef(safety)) == HeadOf(r)
    ensures q.commits == r.commits && WellFormed(q)
  {
    hide ChangedPaths;
    hide InTheWay;
    var m := r.(refs := r.refs[CheckpointRef(safety) := HeadOf(r).value]);
    ResetLands(m, target);
    CleanMeans(r);
    CleanMeans(q);
    if PrefixFree(r.work) && PrefixFree(TreeOf(r, target)) { CheckoutPrefixFree(m, TreeOf(r, target)); }
  }

  lemma UntouchedClear(r: Repo, t: Tree, p: Path)
    requires p in Untouched(r, t)
    ensures p in r.work && forall q :: q in t ==> !(p <= q) && !(q <= p)
  {
    forall q | q in t ensures !(p <= q) && !(q <= p) {
      assert !InTheWay(p, t);
    }
  }

  lemma CheckoutPrefixFree(r: Repo, t: Tree)
    requires PrefixFree(r.work) && PrefixFree(t)
    ensures PrefixFree(Untouched(r, t) + t)
  {
    hide InTheWay;
    var work := Untouched(r, t) + t;
    forall p, q | p in work && q in work && p <= q ensures p == q {
      if q !in t { UntouchedClear(r, t, q); }
      if p !in t { UntouchedClear(r, t, p); }
    }
  }

  /** Restoring the safety checkpoint afterwards returns branch, HEAD, index, files and refs to what they
      were; the whole worktree comes back exactly when nothing untracked was in the way of the target. */
  lemma RestoreRoundTrip(r0: Repo, r1: Repo, r2: Repo, safety: Id, second: Id, target: CommitId)
    requires WellFormed(r0) && HeadOf(r0).Some?
    requires RestoredTo(r0, r1, safety, target) && RestoredTo(r1, r2, second, HeadOf(r0).value)
    ensures r2.head == r0.head && HeadOf(r2) == HeadOf(r0)
    ensures r2.commits == r0.commits && r2.index == r0.index && HeadTree(r2) == HeadTree(r0)
    ensures forall n: RefName :: !n.CheckpointRef? ==> Lookup(r2.refs, n) == Lookup(r0.refs, n)
    ensures forall p :: p in r0.index ==> Lookup(r2.work, p) == Lookup(r0.work, p)
    ensures PrefixFree(r0.work) ==> (r2.work == r0.work <==> NoCollision(r0, target))
  {
    hide ChangedPaths;
    hide PrefixFree;
    hide NoCollision;
    hide InTheWay;
    RestoreArrives(r0, r1, safety, target);
    RestoreArrives(r1, r2, second, HeadOf(r0).value);
    CleanMeans(r0);
    RefsRoundTrip(r0, r1, r2, safety, second, target);
    if PrefixFree(r0.work) { WorkRoundTrip(r0, r1, r2, safety, second, target); }
  }

  lemma RefsRoundTrip(r0: Repo, r1: Repo, r2: Repo, safety: Id, second: Id, target: CommitId)
    requires HeadOf(r0).Some? && RestoredTo(r0, r1, safety, target) && RestoredTo(r1, r2, second, HeadOf(r0).value)
    ensures forall n: RefName :: !n.CheckpointRef? ==> Lookup(r2.refs, n) == Lookup(r0.refs, n)
  {
    hide ChangedPaths;
    hide InTheWay;
  }

  lemma WorkRoundTrip(r0: Repo, r1: Repo, r2: Repo, safety: Id, second: Id, target: CommitId)
    requires WellFormed(r0) && HeadOf(r0).Some? && PrefixFree(r0.work)
    requires RestoredTo(r0, r1, safety, target) && RestoredTo(r1, r2, second, HeadOf(r0).value)
    ensures r2.work == r0.work <==> NoCollision(r0, target)
  {
    hide ChangedPaths;
    CleanMeans(r0);
    var t0, t1 := HeadTree(r0), TreeOf(r0, target);
    assert r1.work == Untouched(r0, t1) + t1 && r1.index == t1;
    assert r2.work == Untouched(r1, t0) + t0;
    if NoCollision(r0, target) {
      forall p ensures Lookup(r2.work, p) == Lookup(r0.work, p) {
        if p in r0.work && p !in r0.index { UntrackedSurvives(r0, r1, t0, t1, p); }
      }
      TreesEqual(r2.work, r0.work);
    } else {
      var p :| p in r0.work && p !in r0.index && InTheWay(p, t1);
      assert p !in r2.work;
    }
  }

  lemma UntrackedSurvives(r0: Repo, r1: Repo, t0: Tree, t1: Tree, p: Path)
    requires PrefixFree(r0.work) && p in r0.work && p !in r0.index && !InTheWay(p, t1)
    requires r0.index == t0 && (forall q :: q in t0 ==> q in r0.work)
    requires r1.work == Untouched(r0, t1) + t1 && r1.index == t1
    ensures p in Untouched(r1, t0) && Untouched(r1, t0)[p] == r0.work[p]
  {
    assert p <= p;
    forall q | q in t0 ensures !(p <= q) && !(q <= p) {
      assert q in r0.work && q != p;
    }
  }

  /** A clean repository whose ignored file is lost on the way: `build/x` is ignored and untracked, and
      the target has a file `build`. */
  lemma DirectoryInTheWayIsLost() returns (r0: Repo, r1: Repo, r2: Repo, target: CommitId)
    ensures WellFormed(r0) && HeadOf(r0).Some? && PrefixFree(r0.work)
    ensures RestoredTo(r0, r1, "a", target) && RestoredTo(r1, r2, "b", HeadOf(r0).value)
    ensures ["build", "x"] in r0.work && ["build", "x"] !in TreeOf(r0, target) && ["build", "x"] !in r2.work
  {
    hide ChangedPaths;
    var empty: Tree := map[];
    var commits: map<CommitId, Commit> := map[0 := Commit([], empty, ""), 1 := Commit([], map[["build"] := "y"], "")];
    target := 1;
    r0 := Repo(commits, map[Branch("main") := 0], OnBranch("main"), empty, map[["build", "x"] := "z"],
               {["build", "x"]}, 2);
    CleanMeans(r0);
    r1 := ResetHard(r0.(refs := r0.refs[CheckpointRef("a") := 0]), target);
    RestoreArrives(r0, r1, "a", target);
    r2 := ResetHard(r1.(refs := r1.refs[CheckpointRef("b") := 1]), 0);
    assert InTheWay(["build", "x"], TreeOf(r0, target)) by {
      assert ["build"] in TreeOf(r0, target) && ["build"] <= ["build", "x"];
    }
    WorkRoundTrip(r0, r1, r2, "a", "b", target);
    assert ["build", "x"] !in r1.work;
  }

  /** A reset on top of an undisturbed safety checkpoint is a restore, and it is clean. */
  lemma ResetIsRestore(r: Repo, m: Repo, q: Repo, c: Id, safety: Id, row: S.Checkpoint)
    requires WellFormed(r)
    ensures HeadOf(r).Some? && ChangedPaths(r) == {} && BranchName(r) == row.branch
            && m == r.(refs := r.refs[CheckpointRef(safety) := HeadOf(r).value])
            && q == ResetHard(m, row.head) && Lookup(r.refs, CheckpointRef(c)) == Some(row.head) ==>
              && RestoredTo(r, q, safety, row.head) && ChangedPaths(q) == {}
              && (ValidBranch(row.branch) && Reviewable(q, safety, row.head, row.branch) <==> Recordable(r, row))
  {
    hide ChangedPaths;
    hide ValidBranch;
    if HeadOf(r).Some? && ChangedPaths(r) == {} && BranchName(r) == row.branch
       && m == r.(refs := r.refs[CheckpointRef(safety) := HeadOf(r).value])
       && q == ResetHard(m, row.head) && Lookup(r.refs, CheckpointRef(c)) == Some(row.head)
    {
      RestoreArrives(r, q, safety, row.head);
      assert RefTree(q, safety) == HeadTree(r) && TreeOf(q, row.head) == TreeOf(r, row.head);
    }
  }

  /** Only the safety ref, then at most one reset to the checkpoint `c`. */
  ghost predicate OnlyReset(was: seq<Effect>, now: seq<Effect>, c: Id, safety: Id) {
    || OnlyRefs(was, now, safety)
    || (|now| > |was| && OnlyRefs(was, now[..|now| - 1], safety) && IsReset(now[|now| - 1], c))
  }

  /** The hard reset to the commit that the checkpoint ref named, and nothing else. */
  ghost predicate IsReset(e: Effect, c: Id) {
    && e.command == GitReset(c)
    && HeadOf(e.before).Some? && CheckpointRef(c) in e.before.refs
    && e.after == ResetHard(e.before, e.before.refs[CheckpointRef(c)])
  }

  /** Only checkpoint rows of `ids` differ, and the log. */
  predicate OnlyRows(s: S.Store, t: S.Store, ids: set<Id>) {
    && t.sessions == s.sessions && t.operations == s.operations && t.approvals == s.approvals
    && t.checkpoints - ids == s.checkpoints - ids
  }

  lemma OnlyRowsJoin(s: S.Store, t: S.Store, u: S.Store, a: set<Id>, b: set<Id>)
    requires OnlyRows(s, t, a) && OnlyRows(t, u, b)
    ensures OnlyRows(s, u, a + b)
  {
    assert s.checkpoints - (a + b) == (s.checkpoints - a) - b == (t.checkpoints - a) - b;
    assert u.checkpoints - (a + b) == (u.checkpoints - b) - a == (t.checkpoints - b) - a;
    assert (t.checkpoints - a) - b == (t.checkpoints - b) - a;
  }

  lemma FinalizesOnly(s: S.Store, c: Id, after: S.Snapshot, diff: S.Digest)
    ensures S.FinalizeCheckpoint(s, c, after, diff).Done? ==> OnlyRows(s, S.FinalizeCheckpoint(s, c, after, diff).store, {c})
  {
  }

  lemma SameRowsOnly(s: S.Store, c: Id)
    ensures OnlyRows(s, s, {c})
  {
  }

  class RestoreService {
    const checkpoints: CheckpointService
    const branchAllowed: string -> bool
    const requireClean: bool

    constructor (checkpoints: CheckpointService, branchAllowed: string -> bool, requireClean: bool)
      ensures this.checkpoints == checkpoints
      ensures this.branchAllowed == branchAllowed && this.requireClean == requireClean
    {
      this.checkpoints, this.branchAllowed, this.requireClean := checkpoints, branchAllowed, requireClean;
    }

    /** The compare-and-swap: the checkpoint is the caller's, its ref is intact, and branch and HEAD are
        what the caller expects. Reads only. */
    method Check(project: Id, session: Id, c: Id, expected: CommitId) returns (r: Result<S.Checkpoint, ErrorCode>)
      requires checkpoints.git.work.Valid()
      modifies checkpoints.git.work
      ensures checkpoints.git.work.Valid() && Extends(old(checkpoints.git.work.repo), checkpoints.git.work.repo)
      ensures old(checkpoints.git.work.trace) <= checkpoints.git.work.trace
      ensures checkpoints.git.work.effects == old(checkpoints.git.work.effects)
      ensures r.Err? ==> r.error != UnknownSideEffect
      ensures r.Ok? ==>
                && c in checkpoints.database.checkpoints && r.value == checkpoints.database.checkpoints[c]
                && r.value.project == project && r.value.session == Some(session)
      ensures old(checkpoints.git.work.script) == [] ==>
                && checkpoints.git.work.repo == old(checkpoints.git.work.repo) && checkpoints.git.work.script == []
                && (r.Ok? <==> Allowed(checkpoints.database.checkpoints, checkpoints.git.work.repo,
                                       project, session, c, expected, branchAllowed, requireClean))
    {
      hide Extends;
      hide Accounted;
      hide WellFormed;
      hide ChangedPaths;
      ghost var r0 := checkpoints.git.work.repo;
      ExtendsSelf(r0);
      var row := checkpoints.GetForSession(c, project, session);
      if row.Err? { return Err(row.error); }
      var error := checkpoints.VerifyRef(c, row.value);
      ghost var r1 := checkpoints.git.work.repo;
      if error.Some? { return Err(error.value); }
      var fate := checkpoints.git.work.Await();
      ghost var r2 := checkpoints.git.work.repo;
      ExtendsTransitive(r0, r1, r2);
      if fate != Completes { return Err(BackendUnavailable); }
      var current := checkpoints.git.work.Status();
      ExtendsTransitive(r0, r2, checkpoints.git.work.repo);
      if current.Err? { return Err(current.error); }
      if current.value.branch != row.value.branch || current.value.head != expected { return Err(CheckpointConflict); }
      if !branchAllowed(current.value.branch) { return Err(BranchNotAllowed); }
      if requireClean && current.value.changed != {} { return Err(WorkspaceDirty); }
      return row;
    }

    /** The hard reset; a failure may have happened before or after it. */
    method ResetToCheckpoint(c: Id, target: CommitId) returns (ok: bool)
      requires checkpoints.git.work.Valid()
      modifies checkpoints.git.work
      ensures checkpoints.git.work.Valid() && Extends(old(checkpoints.git.work.repo), checkpoints.git.work.repo)
      ensures old(checkpoints.git.work.trace) <= checkpoints.git.work.trace
      ensures checkpoints.git.work.effects == old(checkpoints.git.work.effects)
              || exists e :: checkpoints.git.work.effects == old(checkpoints.git.work.effects) + [e] && IsReset(e, c)
      ensures old(checkpoints.git.work.script) == []
              && Lookup(old(checkpoints.git.work.repo).refs, CheckpointRef(c)) == Some(target)
              && HeadOf(old(checkpoints.git.work.repo)).Some? ==>
                && ok && checkpoints.git.work.script == []
                && checkpoints.git.work.repo == ResetHard(old(checkpoints.git.work.repo), target)
    {
      hide Extends;
      hide Accounted;
      ghost var r0 := checkpoints.git.work.repo;
      var fate := checkpoints.git.work.Await();
      ghost var r1 := checkpoints.git.work.repo;
      ok := checkpoints.git.work.Perform(GitReset(c), fate, false, []);
      ExtendsTransitive(r0, r1, checkpoints.git.work.repo);
    }

    /** After the reset: the restored state is confirmed, and the safety checkpoint finalized against it. */
    method Confirm(row: S.Checkpoint, safety: Id, safetyRow: S.Checkpoint) returns (ok: bool)
      requires checkpoints.Valid()
      modifies checkpoints.database, checkpoints.git.work
      ensures checkpoints.Valid() && Extends(old(checkpoints.git.work.repo), checkpoints.git.work.repo)
      ensures OnlyRows(old(checkpoints.database.Contents()), checkpoints.database.Contents(), {safety})
      ensures old(checkpoints.git.work.trace) <= checkpoints.git.work.trace
      ensures checkpoints.git.work.effects == old(checkpoints.git.work.effects)
      ensures !ok ==> checkpoints.database.Contents() == old(checkpoints.database.Contents())
      ensures ok ==> safety in old(checkpoints.database.checkpoints)
                     && Finalized(old(checkpoints.database.Contents()), checkpoints.database.Contents(),
                                  safety, row.head, row.branch)
      ensures old(checkpoints.git.work.script) == [] ==>
                && checkpoints.git.work.repo == old(checkpoints.git.work.repo)
                && (ok ==> checkpoints.git.work.script == [])
                && (ok <==> ChangedPaths(checkpoints.git.work.repo) == {} && ValidBranch(row.branch)
                            && Reviewable(checkpoints.git.work.repo, safety, row.head, row.branch)
                            && safety in old(checkpoints.database.checkpoints))
    {
      hide Extends;
      hide Accounted;
      hide WellFormed;
      hide ChangedPaths;
      hide ChangedBetween;
      hide NoneSensitive;
      hide S.Consistent;
      hide OnlyRows;
      hide Reviews;
      hide FinallySeen;
      hide Snaps;
      hide Played;
      ghost var store := checkpoints.database.Contents();
      SameRowsOnly(store, safety);
      ghost var r0 := checkpoints.git.work.repo;
      var after := checkpoints.git.Snapshot();
      ghost var r1 := checkpoints.git.work.repo;
      if after.Err? { return false; }
      if after.value.branch != row.branch || after.value.head != row.head || after.value.dirty { return false; }
      var finalized := checkpoints.Finalize(safety, safetyRow, row.head, row.branch);
      if finalized.Ok? { FinalizesOnly(store, safety, finalized.value.after.value, finalized.value.diffHash.value); }
      ExtendsTransitive(r0, r1, checkpoints.git.work.repo);
      return finalized.Ok?;
    }

    /** Restores the session's checkpoint `c`. Any error but unknown leaves branch, HEAD, index and
        worktree alone; undisturbed, the repository is the old one plus the safety ref, hard reset. */
    method Restore(project: Id, session: Id, operation: Id, c: Id, safety: Id, expected: CommitId)
      returns (r: Result<S.Checkpoint, ErrorCode>)
      requires checkpoints.Valid()
      modifies checkpoints.database, checkpoints.git.work
      ensures checkpoints.Valid() && Extends(old(checkpoints.git.work.repo), checkpoints.git.work.repo)
      ensures OnlyRows(old(checkpoints.database.Contents()), checkpoints.database.Contents(), {c, safety})
      ensures old(checkpoints.git.work.trace) <= checkpoints.git.work.trace
      ensures OnlyReset(old(checkpoints.git.work.effects), checkpoints.git.work.effects, c, safety)
      ensures r.Err? && r.error != UnknownSideEffect ==>
                OthersOrRef(old(checkpoints.git.work.trace), checkpoints.git.work.trace, safety)
                && checkpoints.database.Contents() == old(checkpoints.database.Contents())
      ensures checkpoints.database.operations == old(checkpoints.database.operations)
      ensures r.Ok? ==>
                && c in old(checkpoints.database.checkpoints) && safety !in old(checkpoints.database.checkpoints)
                && var row := old(checkpoints.database.checkpoints)[c];
                && r.value == row.(status := S.Restored)
                && safety in checkpoints.database.checkpoints
                && checkpoints.database.checkpoints
                   == old(checkpoints.database.checkpoints)[safety := checkpoints.database.checkpoints[safety]][c := r.value]
                && SafetyRow(checkpoints.database.checkpoints[safety], project, session, operation, row)
      ensures old(checkpoints.git.work.script) == [] ==>
                var rows, before := old(checkpoints.database.checkpoints), old(checkpoints.git.work.repo);
                && (r.Ok? ==> checkpoints.git.work.script == [])
                && if Allowed(rows, before, project, session, c, expected, branchAllowed, requireClean)
                      && ChangedPaths(before) == {} && safety !in rows && operation in old(checkpoints.database.operations)
                   then
                     && RestoredTo(before, checkpoints.git.work.repo, safety, rows[c].head)
                     && (r.Ok? <==> Recordable(before, rows[c]))
                     && (r.Ok? ==> KeepsOrigin(checkpoints.database.checkpoints[safety], before))
                     && (r.Err? ==> r.error == UnknownSideEffect)
                   else
                     && r.Err? && r.error != UnknownSideEffect
                     && TipsKept(before, checkpoints.git.work.repo, safety)
      ensures old(checkpoints.git.work.script) == [] ==>
                var rows, before := old(checkpoints.database.checkpoints), old(checkpoints.git.work.repo);
                var admitted := r.Ok? || r.error == UnknownSideEffect;
                && (admitted <==>
                      && c in rows && rows[c].project == project && rows[c].session == Some(session)
                      && CheckpointRef(c) in before.refs && before.refs[CheckpointRef(c)] == rows[c].head
                      && BranchName(before) == rows[c].branch && HeadOf(before) == Some(expected)
                      && branchAllowed(BranchName(before)) && ChangedPaths(before) == {}
                      && safety !in rows && operation in old(checkpoints.database.operations))
                && (admitted ==>
                      (r.Ok? <==> && ValidBranch(rows[c].branch)
                                  && forall p :: Lookup(HeadTree(before), p) != Lookup(TreeOf(before, rows[c].head), p) ==>
                                       !IsSensitive(p)))
    {
      hide Extends;
      hide Accounted;
      hide WellFormed;
      hide ChangedPaths;
      hide S.Consistent;
      hide Reviewable;
      hide ValidBranch;
      hide Recordable;
      hide RestoredTo;
      hide IsReset;
      hide Allowed;
      hide IsSensitive;
      hide OthersOrRef;
      ghost var r0 := checkpoints.git.work.repo;
      AllowedMeans(checkpoints.database.checkpoints, r0, project, session, c, expected, branchAllowed, requireClean);
      var secured := Secure(project, session, operation, c, safety, expected);
      ghost var r1 := checkpoints.git.work.repo;
      if secured.Err? { return Err(secured.error); }
      r := Execute(c, secured.value.0, safety, secured.value.1);
      ExtendsTransitive(r0, r1, checkpoints.git.work.repo);
      ResetIsRestore(r0, r1, checkpoints.git.work.repo, c, safety, secured.value.0);
      RecordableMeans(r0, secured.value.0);
    }

    /** Everything before the reset: the compare-and-swap and the safety checkpoint. */
    method Secure(project: Id, session: Id, operation: Id, c: Id, safety: Id, expected: CommitId)
      returns (r: Result<(S.Checkpoint, S.Checkpoint), ErrorCode>)
      requires checkpoints.Valid()
      modifies checkpoints.database, checkpoints.git.work
      ensures checkpoints.Valid() && Extends(old(checkpoints.git.work.repo), checkpoints.git.work.repo)
      ensures OnlyRows(old(checkpoints.database.Contents()), checkpoints.database.Contents(), {safety})
      ensures old(checkpoints.git.work.trace) <= checkpoints.git.work.trace
      ensures OnlyRefs(old(checkpoints.git.work.effects), checkpoints.git.work.effects, safety)
      ensures checkpoints.database.operations == old(checkpoints.database.operations)
      ensures r.Err? ==>
                && r.error != UnknownSideEffect
                && OthersOrRef(old(checkpoints.git.work.trace), checkpoints.git.work.trace, safety)
                && checkpoints.database.Contents() == old(checkpoints.database.Contents())
      ensures r.Ok? ==>
                && c in old(checkpoints.database.checkpoints) && safety !in old(checkpoints.database.checkpoints)
                && var rows, row, kept := old(checkpoints.database.checkpoints), r.value.0, r.value.1;
                && row == rows[c] && checkpoints.database.checkpoints == rows[safety := kept]
                && kept.project == project && kept.session == Some(session) && kept.operation == Some(operation)
                && kept.kind == S.RollbackSafety && kept.status == S.Recorded
      ensures old(checkpoints.git.work.script) == [] ==>
                var rows, before := old(checkpoints.database.checkpoints), old(checkpoints.git.work.repo);
                && (r.Ok? <==> Allowed(rows, before, project, session, c, expected, branchAllowed, requireClean)
                               && ChangedPaths(before) == {} && safety !in rows
                               && operation in old(checkpoints.database.operations))
                && TipsKept(before, checkpoints.git.work.repo, safety)
                && (r.Ok? ==>
                      && checkpoints.git.work.script == [] && HeadOf(before).Some?
                      && BranchName(before) == r.value.0.branch
                      && Lookup(before.refs, CheckpointRef(c)) == Some(r.value.0.head)
                      && Lookup(checkpoints.git.work.repo.refs, CheckpointRef(c)) == Some(r.value.0.head)
                      && KeepsOrigin(r.value.1, before)
                      && checkpoints.git.work.repo
                         == before.(refs := before.refs[CheckpointRef(safety) := HeadOf(before).value]))
    {
      hide Extends;
      hide Accounted;
      hide WellFormed;
      hide ChangedPaths;
      hide S.Consistent;
      hide ValidBranch;
      hide OthersOrRef;
      hide RefEffect;
      ghost var past := checkpoints.git.work.Past();
      ghost var r0 := checkpoints.git.work.repo;
      var row := Check(project, session, c, expected);
      ghost var r1 := checkpoints.git.work.repo;
      OnlyRefMoves(checkpoints.git.work.origin, checkpoints.git.work.world, past, checkpoints.git.work.Past(), safety);
      if row.Err? { return Err(row.error); }
      var kept := checkpoints.Create(safety, project, Some(session), Some(operation), S.RollbackSafety);
      ExtendsTransitive(r0, r1, checkpoints.git.work.repo);
      OnlyRefMoves(checkpoints.git.work.origin, checkpoints.git.work.world, past, checkpoints.git.work.Past(), safety);
      if kept.Err? { return Err(kept.error); }
      return Ok((row.value, kept.value));
    }

    /** The way there and the way back: whenever an undisturbed restore succeeds, so does the restore of
        its safety checkpoint, and the repository is again what it was; the whole worktree is exactly
        when nothing untracked was in the way. */
    method ThereAndBack(project: Id, session: Id, operation: Id, c: Id, safety: Id, expected: CommitId,
                        operationBack: Id, safetyBack: Id)
      returns (there: Result<S.Checkpoint, ErrorCode>, back: Result<S.Checkpoint, ErrorCode>)
      requires checkpoints.Valid()
      modifies checkpoints.database, checkpoints.git.work
      ensures checkpoints.Valid() && Extends(old(checkpoints.git.work.repo), checkpoints.git.work.repo)
      ensures old(checkpoints.git.work.trace) <= checkpoints.git.work.trace
      ensures OnlyRows(old(checkpoints.database.Contents()), checkpoints.database.Contents(), {c, safety, safetyBack})
      ensures there.Ok? && back.Ok? ==>
                var rows, after := old(checkpoints.database.checkpoints), checkpoints.database.checkpoints;
                && c in rows && safety !in rows && safetyBack !in rows
                && after.Keys == rows.Keys + {safety, safetyBack}
                && after[c] == rows[c].(status := S.Restored)
                && after[safety].status == S.Restored && after[safetyBack].status == S.Recorded
      ensures old(checkpoints.git.work.script) == [] && there.Ok? ==>
                var rows, before, after := old(checkpoints.database.checkpoints), old(checkpoints.git.work.repo),
                                           checkpoints.git.work.repo;
                && c in rows
                && (back.Ok? <==> safetyBack !in rows && safetyBack != safety
                                  && operationBack in old(checkpoints.database.operations))
                && (back.Ok? ==>
                      && after.head == before.head && HeadOf(after) == HeadOf(before)
                      && after.commits == before.commits && after.index == before.index
                      && (forall n: RefName :: !n.CheckpointRef? ==> Lookup(after.refs, n) == Lookup(before.refs, n))
                      && (forall p :: p in before.index ==> Lookup(after.work, p) == Lookup(before.work, p))
                      && (PrefixFree(before.work) ==> (after.work == before.work <==> NoCollision(before, rows[c].head))))
    {
      hide Extends;
      hide Accounted;
      hide WellFormed;
      hide ChangedPaths;
      hide S.Consistent;
      hide ValidBranch;
      hide OnlyReset;
      hide OthersOrRef;
      hide RestoredTo;
      hide NoCollision;
      hide PrefixFree;
      hide Recordable;
      hide Allowed;
      ghost var rows, before := checkpoints.database.checkpoints, checkpoints.git.work.repo;
      ghost var s0 := checkpoints.database.Contents();
      there := Restore(project, session, operation, c, safety, expected);
      ghost var middle := checkpoints.git.work.repo;
      ghost var s1 := checkpoints.database.Contents();
      OnlyRowsJoin(s0, s1, s1, {c, safety}, {safetyBack});
      if there.Err? {
        assert {c, safety} + {safetyBack} == {c, safety, safetyBack};
        return there, there;
      }
      ghost var kept, undisturbed := checkpoints.database.checkpoints, old(checkpoints.git.work.script) == [];
      if undisturbed {
        WayBack(rows, kept, before, middle, project, session, c, safety, expected, branchAllowed, requireClean);
      }
      back := Restore(project, session, operationBack, safety, safetyBack, there.value.head);
      ExtendsTransitive(before, middle, checkpoints.git.work.repo);
      OnlyRowsJoin(s0, s1, checkpoints.database.Contents(), {c, safety}, {safety, safetyBack});
      assert {c, safety} + {safety, safetyBack} == {c, safety, safetyBack};
      if undisturbed && back.Ok? {
        RestoreRoundTrip(before, middle, checkpoints.git.work.repo, safety, safetyBack, rows[c].head);
      }
    }

    /** Reset, confirm, mark. */
    method Execute(c: Id, row: S.Checkpoint, safety: Id, safetyRow: S.Checkpoint)
      returns (r: Result<S.Checkpoint, ErrorCode>)
      requires checkpoints.Valid() && c in checkpoints.database.checkpoints && c != safety
      modifies checkpoints.database, checkpoints.git.work
      ensures checkpoints.Valid() && Extends(old(checkpoints.git.work.repo), checkpoints.git.work.repo)
      ensures OnlyRows(old(checkpoints.database.Contents()), checkpoints.database.Contents(), {c, safety})
      ensures old(checkpoints.git.work.trace) <= checkpoints.git.work.trace
      ensures checkpoints.git.work.effects == old(checkpoints.git.work.effects)
              || exists e :: checkpoints.git.work.effects == old(checkpoints.git.work.effects) + [e] && IsReset(e, c)
      ensures r.Err? ==> r.error == UnknownSideEffect
      ensures checkpoints.database.operations == old(checkpoints.database.operations)
      ensures r.Ok? ==>
                && safety in old(checkpoints.database.checkpoints) && safety in checkpoints.database.checkpoints
                && r.value == old(checkpoints.database.checkpoints)[c].(status := S.Restored)
                && checkpoints.database.checkpoints
                   == old(checkpoints.database.checkpoints)[safety := checkpoints.database.checkpoints[safety]][c := r.value]
                && FinalizedRow(old(checkpoints.database.checkpoints)[safety], checkpoints.database.checkpoints[safety],
                                row.head, row.branch)
      ensures old(checkpoints.git.work.script) == []
              && Lookup(old(checkpoints.git.work.repo).refs, CheckpointRef(c)) == Some(row.head)
              && HeadOf(old(checkpoints.git.work.repo)).Some? && safety in old(checkpoints.database.checkpoints) ==>
                && checkpoints.git.work.repo == ResetHard(old(checkpoints.git.work.repo), row.head)
                && (r.Ok? ==> checkpoints.git.work.script == [])
                && (r.Ok? <==> ChangedPaths(checkpoints.git.work.repo) == {} && ValidBranch(row.branch)
                               && Reviewable(checkpoints.git.work.repo, safety, row.head, row.branch))
    {
      hide Extends;
      hide Accounted;
      hide WellFormed;
      hide ChangedPaths;
      hide S.Consistent;
      hide Reviewable;
      hide ValidBranch;
      hide IsReset;
      ghost var r0 := checkpoints.git.work.repo;
      var done := ResetToCheckpoint(c, row.head);
      ghost var r1 := checkpoints.git.work.repo;
      if !done { return Err(UnknownSideEffect); }
      var confirmed := Confirm(row, safety, safetyRow);
      ExtendsTransitive(r0, r1, checkpoints.git.work.repo);
      if !confirmed { return Err(UnknownSideEffect); }
      var _ := checkpoints.database.MarkCheckpointRestored(c);
      return Ok(checkpoints.database.checkpoints[c]);
    }
  }

  /** What an undisturbed check demands. */
  ghost predicate Allowed(rows: map<Id, S.Checkpoint>, r: Repo, project: Id, session: Id, c: Id, expected: CommitId,
                          branchAllowed: string -> bool, requireClean: bool)
  {
    && c in rows && rows[c].project == project && rows[c].session == Some(session)
    && Lookup(r.refs, CheckpointRef(c)) == Some(rows[c].head)
    && BranchName(r) == rows[c].branch && HeadOf(r) == Some(expected)
    && branchAllowed(BranchName(r)) && (requireClean ==> ChangedPaths(r) == {})
  }

  /** Restoring may still fail to be recorded: the differences must be free of sensitive names. */
  predicate Recordable(r: Repo, row: S.Checkpoint) {
    ValidBranch(row.branch) && NoneSensitive(ChangedBetween(HeadTree(r), TreeOf(r, row.head)))
  }

  lemma RecordableMeans(r: Repo, row: S.Checkpoint)
    ensures Recordable(r, row) <==>
              && ValidBranch(row.branch)
              && forall p :: Lookup(HeadTree(r), p) != Lookup(TreeOf(r, row.head), p) ==> !IsSensitive(p)
  {
    hide ValidBranch;
    hide IsSensitive;
    var names := ChangedBetween(HeadTree(r), TreeOf(r, row.head));
    assert forall p :: p in names <==> Lookup(HeadTree(r), p) != Lookup(TreeOf(r, row.head), p);
  }

  lemma AllowedMeans(rows: map<Id, S.Checkpoint>, r: Repo, project: Id, session: Id, c: Id, expected: CommitId,
                     branchAllowed: string -> bool, requireClean: bool)
    ensures Allowed(rows, r, project, session, c, expected, branchAllowed, requireClean) && ChangedPaths(r) == {} <==>
              && c in rows && rows[c].project == project && rows[c].session == Some(session)
              && CheckpointRef(c) in r.refs && r.refs[CheckpointRef(c)] == rows[c].head
              && BranchName(r) == rows[c].branch && HeadOf(r) == Some(expected)
              && branchAllowed(BranchName(r)) && ChangedPaths(r) == {}
  {
    hide ChangedPaths;
  }

  predicate FinalizedRow(before: S.Checkpoint, after: S.Checkpoint, head: CommitId, branch: string) {
    && after == before.(after := after.after, diffHash := after.diffHash)
    && after.after.Some? && after.after.value.head == head && after.after.value.branch == branch
  }

  /** A restore that is allowed, of a clean repository, and still cannot be recorded: the checkpoint's
      commit has a file `token`, which somebody else's later commit removed. */
  lemma UnrecordableRestore() returns (rows: map<Id, S.Checkpoint>, r: Repo, c: Id, expected: CommitId)
    ensures WellFormed(r) && ChangedPaths(r) == {} && PrefixFree(r.work)
    ensures Allowed(rows, r, "project", "session", c, expected, _ => true, true)
    ensures !Recordable(r, rows[c])
  {
    hide ChangedPaths;
    var with, without: Tree := map[["token"] := "x"], map[];
    var commits: map<CommitId, Commit> := map[0 := Commit([], with, ""), 1 := Commit([0], without, "")];
    c, expected := "a", 1;
    r := Repo(commits, map[Branch("main") := 1, CheckpointRef(c) := 0], OnBranch("main"), without, without, {}, 2);
    CleanMeans(r);
    var snapshot := S.Snapshot.Snapshot("main", 0, false, {}, with, false);
    rows := map[c := S.Checkpoint.Checkpoint("project", Some("session"), None, S.Manual, "main", 0, snapshot, None, None,
                                             S.Recorded)];
    assert ["token"] in ChangedBetween(HeadTree(r), TreeOf(r, 0));
    assert IsSensitive(["token"]) by {
      assert Lower("token") == "token" && "token" == SENSITIVE_NAMES[9];
      assert IsSensitiveName(["token"][0]);
    }
  }

  /** The row stands for the HEAD and the branch of `r`. */
  predicate KeepsOrigin(row: S.Checkpoint, r: Repo) {
    Some(row.head) == HeadOf(r) && row.branch == BranchName(r)
  }

  /** After a restore that could be recorded, the way back is allowed and can be recorded. */
  lemma WayBack(rows: map<Id, S.Checkpoint>, kept: map<Id, S.Checkpoint>, r: Repo, q: Repo, project: Id, session: Id,
                c: Id, safety: Id, expected: CommitId, branchAllowed: string -> bool, requireClean: bool)
    requires WellFormed(r) && Allowed(rows, r, project, session, c, expected, branchAllowed, requireClean)
    requires RestoredTo(r, q, safety, rows[c].head) && Recordable(r, rows[c])
    requires safety in kept && KeepsOrigin(kept[safety], r)
    requires kept[safety].project == project && kept[safety].session == Some(session)
    ensures Allowed(kept, q, project, session, safety, rows[c].head, branchAllowed, requireClean)
    ensures ChangedPaths(q) == {} && Recordable(q, kept[safety])
  {
    hide ChangedPaths;
    hide NoneSensitive;
    hide ValidBranch;
    RestoreArrives(r, q, safety, rows[c].head);
    var there, back := ChangedBetween(HeadTree(r), TreeOf(r, rows[c].head)), ChangedBetween(HeadTree(q), TreeOf(q, kept[safety].head));
    assert there == back;
  }

  predicate SafetyRow(row: S.Checkpoint, project: Id, session: Id, operation: Id, target: S.Checkpoint) {
    && row.project == project && row.session == Some(session) && row.operation == Some(operation)
    && row.kind == S.RollbackSafety && row.status == S.Recorded
    && row.after.Some? && row.after.value.head == target.head && row.after.value.branch == target.branch
  }
}
