/** The await bounds of the file mutations are sharp: one disturbed await more, and others can make each
    promise fail. Every witness is a run of the mutation itself. */
module AwaitBounds {
  import opened Basics
  import opened Repository
  import opened Footers
  import opened ReplayKeys
  import opened Workspaces
  import opened GitGuards

  const FILE: Path := ["a"]
  const OTHER: Path := ["b"]
  const MESSAGE := WipMessage("d", "s")

  /** A repository that extends none: an await at which it is offered disturbs nothing. */
  const NOWHERE := Repo(map[], map[], OnBranch("main"), map[], map[], {}, 0)

  const PAUSE := Interference(NOWHERE, Completes)

  /** `main` on a commit with the files `tree`, beside a commit with the files `beside`; the index and
      the worktree as given. */
  function TwoCommits(tree: Tree, beside: Tree, tip: CommitId, index: Tree, work: Tree): Repo {
    Repo(map[0 := Commit([], tree, ""), 1 := Commit([], beside, "")], map[Branch("main") := tip],
         OnBranch("main"), index, work, {}, 2)
  }

  lemma TwoCommitsExtend(tree: Tree, beside: Tree, t0: CommitId, i0: Tree, w0: Tree, t1: CommitId, i1: Tree, w1: Tree)
    requires t0 <= 1 && t1 <= 1
    ensures Extends(TwoCommits(tree, beside, t0, i0, w0), TwoCommits(tree, beside, t1, i1, w1))
    ensures !Extends(TwoCommits(tree, beside, t0, i0, w0), NOWHERE)
  {
  }

  /** Everything that happened since `start`, the moves of others at the first `n` awaits included, has led to
      the repository of `work`. */
  ghost predicate RunOf(work: Workspace, start: Repo, n: nat)
    reads work
  {
    work.Valid() && work.origin == start && |work.world| == n
  }

  /** Pauses disturb nothing. */
  lemma {:induction false} Paused(r: Repo, script: seq<Interference>, k: nat)
    requires !Extends(r, NOWHERE) && k <= |script| && forall i :: 0 <= i < k ==> script[i] == PAUSE
    ensures Played(r, script, k) == r
  {
    hide Extends;
    if k > 0 {
      Paused(r, script, k - 1);
      assert Drop(script, k - 1)[0] == PAUSE;
    }
  }

  lemma PausedOnce(r: Repo, script: seq<Interference>)
    requires !Extends(r, NOWHERE) && script != [] && script[0] == PAUSE
    ensures Reached(r, script) == r && FateOf(script) == Completes
  {
    hide Extends;
  }

  lemma PausedThrice(r: Repo, script: seq<Interference>)
    requires !Extends(r, NOWHERE) && 3 <= |script| && forall i :: 0 <= i < 3 ==> script[i] == PAUSE
    ensures Played(r, script, 1) == Played(r, script, 2) == Played(r, script, 3) == r && Complete(script, 3)
  {
    hide Extends;
    Paused(r, script, 1);
    Paused(r, script, 2);
    Paused(r, script, 3);
  }

  lemma AllComplete(script: seq<Interference>, k: nat)
    requires forall i :: 0 <= i < |script| ==> script[i].fate == Completes
    ensures Complete(script, k)
  {
  }

  /** The next await after the pauses. */
  lemma Struck(r: Repo, script: seq<Interference>, k: nat, x: Repo)
    requires !Extends(r, NOWHERE) && k < |script| && (forall i :: 0 <= i < k ==> script[i] == PAUSE)
    requires script[k] == Interference(x, Completes) && Extends(r, x)
    ensures Played(r, script, k + 1) == x
  {
    hide Extends;
    Paused(r, script, k);
    assert Drop(script, k)[0] == script[k];
  }

  lemma Names()
    ensures ValidArguments(Create, "d", "s")
  {
  }

  lemma ChangedOnly(r: Repo, p: Path)
    requires IsChanged(r, p) && forall q :: q != p ==> !IsChanged(r, q)
    ensures ChangedPaths(r) == {p}
  {
    assert p in HeadTree(r).Keys + r.index.Keys + r.work.Keys;
  }

  lemma Unchanged(r: Repo)
    requires forall q :: !IsChanged(r, q)
    ensures ChangedPaths(r) == {}
  {
  }

  // ---------------------------------------------------------------- writing

  const ONE: Tree := map[OTHER := "y"]

  /** Clean on commit 0, which is empty. */
  const EMPTY_START := TwoCommits(map[], ONE, 0, map[], map[])

  /** The file has been written. */
  const WRITTEN := TwoCommits(map[], ONE, 0, map[], map[FILE := "x"])

  /** Others have checked out commit 1 meanwhile. */
  const SWITCHED := TwoCommits(map[], ONE, 1, ONE, map[FILE := "x", OTHER := "y"])

  const STAGED := TwoCommits(map[], ONE, 1, map[FILE := "x", OTHER := "y"], map[FILE := "x", OTHER := "y"])

  lemma SwitchIsIsolated()
    ensures ChangedPaths(EMPTY_START) == {} && ChangedPaths(SWITCHED) == {FILE}
    ensures AddPath(SWITCHED, FILE) == Some(STAGED) && Covers([FILE], STAGED)
    ensures CreateCommit(STAGED, [FILE], MESSAGE) == Some(CommitOnly(STAGED, [FILE], [1], MESSAGE))
  {
    hide WipMessage;
    assert FILE != OTHER by { assert FILE[0] != OTHER[0]; }
    Unchanged(EMPTY_START);
    ChangedOnly(SWITCHED, FILE);
    assert AddPath(SWITCHED, FILE).value.index == STAGED.index;
    PutAllAt(ONE, [FILE], STAGED.work, FILE);
    ChangedOnly(STAGED, FILE);
    assert FILE in [FILE];
  }

  lemma WriteScript(script: seq<Interference>)
    requires script == [PAUSE, PAUSE, PAUSE, PAUSE, PAUSE, Interference(SWITCHED, Completes)]
    ensures CleanOn(EMPTY_START, script, 0) && Played(EMPTY_START, script, 3) == EMPTY_START
    ensures Write(EMPTY_START, FILE, "x") == WRITTEN
    ensures Stages(WRITTEN, Drop(script, 3), FILE, MESSAGE, 0) && Played(WRITTEN, Drop(script, 3), 4) == SWITCHED
  {
    hide Extends;
    hide ChangedPaths;
    hide CreateCommit;
    hide AddPath;
    hide CommitOnly;
    hide WipMessage;
    SwitchIsIsolated();
    var rest := Drop(script, 3);
    TwoCommitsExtend(map[], ONE, 0, map[], map[], 0, map[], map[]);
    TwoCommitsExtend(map[], ONE, 0, map[], WRITTEN.work, 1, ONE, SWITCHED.work);
    Paused(EMPTY_START, script, 1);
    Paused(EMPTY_START, script, 2);
    Paused(EMPTY_START, script, 3);
    Paused(WRITTEN, rest, 1);
    Paused(WRITTEN, rest, 2);
    Struck(WRITTEN, rest, 2, SWITCHED);
    assert Drop(rest, 3) == [] && Drop(rest, 4) == [];
  }

  /** With a sixth disturbed await others can put the new commit on another parent. */
  method SixthAwaitMovesTheParent() returns (work: Workspace, tip: CommitId)
    ensures fresh(work) && RunOf(work, EMPTY_START, 6)
    ensures HeadOf(work.repo) == Some(tip) && tip in work.repo.commits && tip != 0
    ensures work.repo.commits[tip].parents == [1] && !IsolatedCommit(work.repo, tip, 0, [FILE], Create)
  {
    hide Extends;
    hide WellFormed;
    hide Accounted;
    hide ChangedPaths;
    hide MutationOutcome;
    hide IsolatedCommit;
    hide Stages;
    hide CleanOn;
    hide Played;
    hide Write;
    hide AddPath;
    hide CreateCommit;
    hide CommitOnly;
    hide WipMessage;
    hide ValidArguments;
    hide TwoCommits;
    var script := [PAUSE, PAUSE, PAUSE, PAUSE, PAUSE, Interference(SWITCHED, Completes)];
    StartsWell();
    WriteScript(script);
    SwitchIsIsolated();
    Names();
    work := new Workspace(EMPTY_START, script);
    var git := new GitGuard(work);
    var r := git.CommitFileBytes(FILE, "x", 0, "d", Some(false), Create, "s", "main", Disk(true, true));
    tip := r.value;
    CommittedOnOne(STAGED, [FILE]);
  }

  lemma CommittedOnOne(r: Repo, paths: seq<Path>)
    requires r.next == 2 && r.head == OnBranch("main")
    ensures var q := CommitOnly(r, paths, [1], MESSAGE);
            && HeadOf(q) == Some(2) && 2 in q.commits && q.commits[2].parents == [1]
            && !IsolatedCommit(q, 2, 0, paths, Create)
  {
  }

  lemma StartsWell()
    ensures STAGED.next == 2 && STAGED.head == OnBranch("main")
    ensures WellFormed(EMPTY_START) && FILE !in EMPTY_START.work && !IsDirectory(EMPTY_START.work, FILE)
  {
  }

  /** Others have rewritten the file just after the Bridge wrote it. */
  const REWRITTEN := TwoCommits(map[], ONE, 0, map[], map[FILE := "z"])

  const RESTAGED := TwoCommits(map[], ONE, 0, map[FILE := "z"], map[FILE := "z"])

  lemma RewriteIsStaged()
    ensures ChangedPaths(EMPTY_START) == {} && ChangedPaths(REWRITTEN) == {FILE}
    ensures AddPath(REWRITTEN, FILE) == Some(RESTAGED) && Covers([FILE], RESTAGED)
    ensures CreateCommit(RESTAGED, [FILE], MESSAGE) == Some(CommitOnly(RESTAGED, [FILE], [0], MESSAGE))
  {
    hide WipMessage;
    Unchanged(EMPTY_START);
    ChangedOnly(REWRITTEN, FILE);
    PutAllAt(map[], [FILE], RESTAGED.work, FILE);
    ChangedOnly(RESTAGED, FILE);
    assert FILE in [FILE];
  }

  lemma RewriteScript(script: seq<Interference>)
    requires script == [PAUSE, PAUSE, PAUSE, Interference(REWRITTEN, Completes)]
    ensures CleanOn(EMPTY_START, script, 0) && Played(EMPTY_START, script, 3) == EMPTY_START
    ensures Write(EMPTY_START, FILE, "x") == WRITTEN
    ensures Stages(WRITTEN, Drop(script, 3), FILE, MESSAGE, 0) && Played(WRITTEN, Drop(script, 3), 4) == REWRITTEN
  {
    hide Extends;
    hide ChangedPaths;
    hide CreateCommit;
    hide AddPath;
    hide CommitOnly;
    hide WipMessage;
    RewriteIsStaged();
    var rest := Drop(script, 3);
    TwoCommitsExtend(map[], ONE, 0, map[], map[], 0, map[], map[]);
    TwoCommitsExtend(map[], ONE, 0, map[], WRITTEN.work, 0, map[], REWRITTEN.work);
    Paused(EMPTY_START, script, 1);
    Paused(EMPTY_START, script, 2);
    Paused(EMPTY_START, script, 3);
    Struck(WRITTEN, rest, 0, REWRITTEN);
    assert Drop(rest, 1) == [] && Drop(rest, 2) == [] && Drop(rest, 3) == [] && Drop(rest, 4) == [];
  }

  /** With a fourth disturbed await others can put their own content into the new commit. */
  method FourthAwaitReplacesTheContent() returns (work: Workspace, tip: CommitId)
    ensures fresh(work) && RunOf(work, EMPTY_START, 4)
    ensures tip in work.repo.commits && tip != 0 && Lookup(work.repo.commits[tip].tree, FILE) == Some("z")
  {
    hide Extends;
    hide WellFormed;
    hide Accounted;
    hide ChangedPaths;
    hide MutationOutcome;
    hide Stages;
    hide CleanOn;
    hide Played;
    hide Write;
    hide AddPath;
    hide CreateCommit;
    hide CommitOnly;
    hide WipMessage;
    hide ValidArguments;
    hide TwoCommits;
    var script := [PAUSE, PAUSE, PAUSE, Interference(REWRITTEN, Completes)];
    StartsWell();
    RewriteScript(script);
    RewriteIsStaged();
    Names();
    work := new Workspace(EMPTY_START, script);
    var git := new GitGuard(work);
    var r := git.CommitFileBytes(FILE, "x", 0, "d", Some(false), Create, "s", "main", Disk(true, true));
    tip := r.value;
    CommittedContent(RESTAGED);
  }

  lemma CommittedContent(r: Repo)
    requires r == RESTAGED
    ensures r.next == 2 && 2 in CommitOnly(r, [FILE], [0], MESSAGE).commits
    ensures Lookup(CommitOnly(r, [FILE], [0], MESSAGE).commits[2].tree, FILE) == Some("z")
  {
    hide WipMessage;
    PutAllAt(HeadTree(r), [FILE], r.work, FILE);
    assert FILE in [FILE];
  }

  // ---------------------------------------------------------------- deleting

  const FIRST: Tree := map[FILE := "x"]

  const BOTH: Tree := map[FILE := "x", OTHER := "y"]

  /** Clean on commit 0, which has the file; commit 1 has another one as well. */
  const FILE_START := TwoCommits(FIRST, BOTH, 0, FIRST, FIRST)

  const REMOVED := TwoCommits(FIRST, BOTH, 0, map[], map[])

  /** Others have checked out commit 1, keeping the removal. */
  const REMOVED_ELSEWHERE := TwoCommits(FIRST, BOTH, 1, ONE, ONE)

  /** Others have created the file again. */
  const RECREATED := TwoCommits(FIRST, BOTH, 0, map[], map[FILE := "z"])

  lemma RemovalStates()
    ensures ChangedPaths(FILE_START) == {} && Apply(GitRemove(FILE), FILE_START) == Some(REMOVED)
    ensures Covers([FILE], REMOVED_ELSEWHERE) && Covers([FILE], RECREATED)
    ensures CreateCommit(REMOVED_ELSEWHERE, [FILE], MESSAGE) == Some(CommitOnly(REMOVED_ELSEWHERE, [FILE], [1], MESSAGE))
    ensures CreateCommit(RECREATED, [FILE], MESSAGE) == Some(CommitOnly(RECREATED, [FILE], [0], MESSAGE))
  {
    hide WipMessage;
    assert FILE != OTHER by { assert FILE[0] != OTHER[0]; }
    assert FILE in [FILE];
    Unchanged(FILE_START);
    assert Apply(GitRemove(FILE), FILE_START).value.work == REMOVED.work;
    assert Apply(GitRemove(FILE), FILE_START).value.index == REMOVED.index;
    ChangedOnly(REMOVED_ELSEWHERE, FILE);
    ChangedOnly(RECREATED, FILE);
    PutAllAt(BOTH, [FILE], ONE, FILE);
    PutAllAt(FIRST, [FILE], RECREATED.work, FILE);
  }

  lemma RemovalScript(script: seq<Interference>, pauses: nat, x: Repo)
    requires script == [PAUSE, PAUSE, PAUSE, PAUSE] + (if pauses == 2 then [PAUSE, PAUSE] else []) + [Interference(x, Completes)]
    requires (pauses == 2 && x == REMOVED_ELSEWHERE) || (pauses == 0 && x == RECREATED)
    ensures CleanOn(FILE_START, script, 0) && Played(FILE_START, script, 3) == FILE_START
    ensures Reached(FILE_START, Drop(script, 3)) == FILE_START && FateOf(Drop(script, 3)) == Completes
    ensures var rest := Drop(Drop(script, 3), 1);
            Checks(REMOVED, rest, [FILE], MESSAGE, 0) && Played(REMOVED, rest, 3) == x
  {
    hide Extends;
    hide ChangedPaths;
    hide CreateCommit;
    hide CommitOnly;
    hide WipMessage;
    hide Apply;
    RemovalStates();
    var rest := Drop(Drop(script, 3), 1);
    TwoCommitsExtend(FIRST, BOTH, 0, FIRST, FIRST, 0, FIRST, FIRST);
    TwoCommitsExtend(FIRST, BOTH, 0, map[], map[], x.refs[Branch("main")], x.index, x.work);
    Paused(FILE_START, script, 1);
    Paused(FILE_START, script, 2);
    Paused(FILE_START, script, 3);
    Paused(FILE_START, Drop(script, 3), 1);
    if pauses == 2 {
      Paused(REMOVED, rest, 1);
      Paused(REMOVED, rest, 2);
      Struck(REMOVED, rest, 2, x);
    } else {
      Struck(REMOVED, rest, 0, x);
      assert Drop(rest, 1) == [] && Drop(rest, 2) == [];
    }
    assert Drop(rest, 3) == [];
  }

  /** With a seventh disturbed await others can put the deletion on another parent. */
  method SeventhAwaitMovesTheParent() returns (work: Workspace, tip: CommitId)
    ensures fresh(work) && RunOf(work, FILE_START, 7)
    ensures HeadOf(work.repo) == Some(tip) && tip in work.repo.commits && tip != 0
    ensures work.repo.commits[tip].parents == [1] && !IsolatedCommit(work.repo, tip, 0, [FILE], Create)
  {
    hide Extends;
    hide WellFormed;
    hide Accounted;
    hide ChangedPaths;
    hide MutationOutcome;
    hide IsolatedCommit;
    hide Checks;
    hide CleanOn;
    hide Played;
    hide Apply;
    hide CreateCommit;
    hide CommitOnly;
    hide WipMessage;
    hide ValidArguments;
    hide TwoCommits;
    var script := [PAUSE, PAUSE, PAUSE, PAUSE] + [PAUSE, PAUSE] + [Interference(REMOVED_ELSEWHERE, Completes)];
    FileStartsWell();
    RemovalScript(script, 2, REMOVED_ELSEWHERE);
    RemovalStates();
    Names();
    work := new Workspace(FILE_START, script);
    var git := new GitGuard(work);
    var r := git.DeleteTrackedFile(FILE, 0, "d", Create, "s", "main");
    tip := r.value;
    CommittedOnOne(REMOVED_ELSEWHERE, [FILE]);
  }

  /** With a fifth disturbed await the file can be back in the new commit. */
  method FifthAwaitKeepsTheFile() returns (work: Workspace, tip: CommitId)
    ensures fresh(work) && RunOf(work, FILE_START, 5)
    ensures tip in work.repo.commits && tip != 0 && Lookup(work.repo.commits[tip].tree, FILE) == Some("z")
  {
    hide Extends;
    hide WellFormed;
    hide Accounted;
    hide ChangedPaths;
    hide MutationOutcome;
    hide IsolatedCommit;
    hide Checks;
    hide CleanOn;
    hide Played;
    hide Apply;
    hide CreateCommit;
    hide CommitOnly;
    hide WipMessage;
    hide ValidArguments;
    hide TwoCommits;
    var script := [PAUSE, PAUSE, PAUSE, PAUSE] + [] + [Interference(RECREATED, Completes)];
    FileStartsWell();
    RemovalScript(script, 0, RECREATED);
    RemovalStates();
    Names();
    work := new Workspace(FILE_START, script);
    var git := new GitGuard(work);
    var r := git.DeleteTrackedFile(FILE, 0, "d", Create, "s", "main");
    tip := r.value;
    RecreatedContent(RECREATED);
  }

  lemma RecreatedContent(r: Repo)
    requires r == RECREATED
    ensures r.next == 2 && 2 in CommitOnly(r, [FILE], [0], MESSAGE).commits
    ensures Lookup(CommitOnly(r, [FILE], [0], MESSAGE).commits[2].tree, FILE) == Some("z")
  {
    hide WipMessage;
    PutAllAt(HeadTree(r), [FILE], r.work, FILE);
    assert FILE in [FILE];
  }

  lemma FileStartsWell()
    ensures WellFormed(FILE_START)
    ensures REMOVED_ELSEWHERE.next == 2 && REMOVED_ELSEWHERE.head == OnBranch("main")
  {
  }

  // ---------------------------------------------------------------- moving

  const TARGET: Path := ["c"]

  const MOVED_FILE: Tree := map[TARGET := "x"]

  const MOVED := TwoCommits(FIRST, BOTH, 0, MOVED_FILE, MOVED_FILE)

  const MOVED_ELSEWHERE :=
    TwoCommits(FIRST, BOTH, 1, map[TARGET := "x", OTHER := "y"], map[TARGET := "x", OTHER := "y"])

  /** Others have rewritten the source, and what moving it then makes of it. */
  const EDITED := TwoCommits(FIRST, BOTH, 0, FIRST, map[FILE := "z"])

  const EDITED_MOVED := TwoCommits(FIRST, BOTH, 0, MOVED_FILE, map[TARGET := "z"])

  lemma MoveStates()
    ensures ChangedPaths(FILE_START) == {}
    ensures Apply(GitMove(FILE, TARGET), FILE_START) == Some(MOVED)
    ensures Apply(GitMove(FILE, TARGET), EDITED) == Some(EDITED_MOVED)
  {
    assert FILE != OTHER && FILE != TARGET by { assert FILE[0] != OTHER[0] && FILE[0] != TARGET[0]; }
    Unchanged(FILE_START);
    assert Apply(GitMove(FILE, TARGET), FILE_START).value.work == MOVED.work;
    assert Apply(GitMove(FILE, TARGET), FILE_START).value.index == MOVED.index;
    assert Apply(GitMove(FILE, TARGET), EDITED).value.work == EDITED_MOVED.work;
    assert Apply(GitMove(FILE, TARGET), EDITED).value.index == EDITED_MOVED.index;
  }

  lemma MoveCommits()
    ensures Covers([FILE, TARGET], MOVED_ELSEWHERE) && Covers([FILE, TARGET], EDITED_MOVED)
    ensures CreateCommit(MOVED_ELSEWHERE, [FILE, TARGET], MESSAGE)
         == Some(CommitOnly(MOVED_ELSEWHERE, [FILE, TARGET], [1], MESSAGE))
    ensures CreateCommit(EDITED_MOVED, [FILE, TARGET], MESSAGE)
         == Some(CommitOnly(EDITED_MOVED, [FILE, TARGET], [0], MESSAGE))
  {
    hide WipMessage;
    assert FILE != OTHER && FILE != TARGET && TARGET != OTHER
      by { assert FILE[0] != OTHER[0] && FILE[0] != TARGET[0] && TARGET[0] != OTHER[0]; }
    var paths := [FILE, TARGET];
    assert FILE in paths && TARGET in paths;
    forall p | p in ChangedPaths(MOVED_ELSEWHERE) ensures p in paths { assert IsChanged(MOVED_ELSEWHERE, p); }
    forall p | p in ChangedPaths(EDITED_MOVED) ensures p in paths { assert IsChanged(EDITED_MOVED, p); }
    PutAllAt(BOTH, paths, MOVED_ELSEWHERE.work, FILE);
    PutAllAt(FIRST, paths, EDITED_MOVED.work, FILE);
  }

  lemma MoveElsewhereScript(script: seq<Interference>)
    requires script == [PAUSE, PAUSE, PAUSE, PAUSE, PAUSE, PAUSE, Interference(MOVED_ELSEWHERE, Completes)]
    ensures CleanOn(FILE_START, script, 0) && Played(FILE_START, script, 3) == FILE_START
    ensures Reached(FILE_START, Drop(script, 3)) == FILE_START && FateOf(Drop(script, 3)) == Completes
    ensures var rest := Drop(Drop(script, 3), 1);
            Checks(MOVED, rest, [FILE, TARGET], MESSAGE, 0) && Played(MOVED, rest, 3) == MOVED_ELSEWHERE
  {
    hide Extends;
    hide Complete;
    hide Played;
    hide Reached;
    hide FateOf;
    hide ChangedPaths;
    hide CreateCommit;
    hide CommitOnly;
    hide WipMessage;
    hide Apply;
    MoveStates();
    MoveCommits();
    var rest := Drop(Drop(script, 3), 1);
    TwoCommitsExtend(FIRST, BOTH, 0, FIRST, FIRST, 0, FIRST, FIRST);
    TwoCommitsExtend(FIRST, BOTH, 0, MOVED_FILE, MOVED_FILE, 1, MOVED_ELSEWHERE.index, MOVED_ELSEWHERE.work);
    PausedThrice(FILE_START, script);
    PausedOnce(FILE_START, Drop(script, 3));
    Paused(MOVED, rest, 1);
    Paused(MOVED, rest, 2);
    assert Extends(MOVED, MOVED_ELSEWHERE);
    Struck(MOVED, rest, 2, MOVED_ELSEWHERE);
    assert Drop(rest, 3) == [];
    assert Complete(rest, 3) by { AllComplete(rest, 3); }
  }

  lemma MoveEditedScript(script: seq<Interference>)
    requires script == [PAUSE, PAUSE, PAUSE, Interference(EDITED, Completes)]
    ensures CleanOn(FILE_START, script, 0) && Played(FILE_START, script, 3) == FILE_START
    ensures Reached(FILE_START, Drop(script, 3)) == EDITED && FateOf(Drop(script, 3)) == Completes
    ensures var rest := Drop(Drop(script, 3), 1);
            Checks(EDITED_MOVED, rest, [FILE, TARGET], MESSAGE, 0) && Played(EDITED_MOVED, rest, 3) == EDITED_MOVED
  {
    hide Extends;
    hide ChangedPaths;
    hide CreateCommit;
    hide CommitOnly;
    hide WipMessage;
    hide Apply;
    MoveStates();
    MoveCommits();
    var rest := Drop(Drop(script, 3), 1);
    TwoCommitsExtend(FIRST, BOTH, 0, FIRST, FIRST, 0, FIRST, EDITED.work);
    Paused(FILE_START, script, 1);
    Paused(FILE_START, script, 2);
    Paused(FILE_START, script, 3);
    Struck(FILE_START, Drop(script, 3), 0, EDITED);
    assert rest == [] && Drop(rest, 1) == [] && Drop(rest, 2) == [] && Drop(rest, 3) == [];
    ThreeAwaits(EDITED_MOVED, rest);
  }

  /** With a seventh disturbed await others can put the move on another parent. */
  method SeventhAwaitMovesTheMove() returns (work: Workspace, tip: CommitId)
    ensures fresh(work) && RunOf(work, FILE_START, 7)
    ensures HeadOf(work.repo) == Some(tip) && tip in work.repo.commits && tip != 0
    ensures work.repo.commits[tip].parents == [1] && !IsolatedCommit(work.repo, tip, 0, [FILE, TARGET], Create)
  {
    hide Extends;
    hide WellFormed;
    hide Accounted;
    hide ChangedPaths;
    hide MutationOutcome;
    hide IsolatedCommit;
    hide Checks;
    hide CleanOn;
    hide Played;
    hide Apply;
    hide CreateCommit;
    hide CommitOnly;
    hide WipMessage;
    hide ValidArguments;
    hide TwoCommits;
    var script := [PAUSE, PAUSE, PAUSE, PAUSE, PAUSE, PAUSE, Interference(MOVED_ELSEWHERE, Completes)];
    MoveStartsWell();
    MoveElsewhereScript(script);
    MoveStates();
    MoveCommits();
    Names();
    work := new Workspace(FILE_START, script);
    var git := new GitGuard(work);
    var r := git.MoveTrackedFile(FILE, TARGET, 0, "d", Create, "s", "main");
    tip := r.value;
    CommittedOnOne(MOVED_ELSEWHERE, [FILE, TARGET]);
  }

  /** With a fourth disturbed await the move can carry the content of others along. */
  method FourthAwaitRewritesTheMove() returns (work: Workspace, tip: CommitId)
    ensures fresh(work) && RunOf(work, FILE_START, 4)
    ensures tip in work.repo.commits && tip != 0
    ensures Lookup(work.repo.commits[tip].tree, TARGET) == Some("z") && Lookup(FIRST, FILE) == Some("x")
  {
    hide Extends;
    hide WellFormed;
    hide Accounted;
    hide ChangedPaths;
    hide MutationOutcome;
    hide IsolatedCommit;
    hide Checks;
    hide CleanOn;
    hide Played;
    hide Apply;
    hide CreateCommit;
    hide CommitOnly;
    hide WipMessage;
    hide ValidArguments;
    hide TwoCommits;
    var script := [PAUSE, PAUSE, PAUSE, Interference(EDITED, Completes)];
    MoveStartsWell();
    MoveEditedScript(script);
    MoveStates();
    MoveCommits();
    Names();
    work := new Workspace(FILE_START, script);
    var git := new GitGuard(work);
    var r := git.MoveTrackedFile(FILE, TARGET, 0, "d", Create, "s", "main");
    tip := r.value;
    EditedContent(EDITED_MOVED);
  }

  lemma EditedContent(r: Repo)
    requires r == EDITED_MOVED
    ensures r.next == 2 && 2 in CommitOnly(r, [FILE, TARGET], [0], MESSAGE).commits
    ensures Lookup(CommitOnly(r, [FILE, TARGET], [0], MESSAGE).commits[2].tree, TARGET) == Some("z")
  {
    hide WipMessage;
    PutAllAt(HeadTree(r), [FILE, TARGET], r.work, TARGET);
    assert TARGET in [FILE, TARGET];
  }

  lemma MoveStartsWell()
    ensures WellFormed(FILE_START)
    ensures MOVED_ELSEWHERE.next == 2 && MOVED_ELSEWHERE.head == OnBranch("main") && MOVED_ELSEWHERE != EDITED
  {
    assert MOVED_ELSEWHERE.refs[Branch("main")] != EDITED.refs[Branch("main")];
  }

  // ---------------------------------------------------------------- amending

  /** The file has been written and staged. */
  const ADDED := TwoCommits(map[], ONE, 0, map[FILE := "x"], map[FILE := "x"])

  /** At the last command of the status of the recheck others check out commit 1; HEAD is not looked at again. */
  lemma AmendScript(r: Repo, x: Repo, paths: seq<Path>, script: seq<Interference>)
    requires script == [PAUSE, PAUSE, Interference(x, Completes)] && !Extends(r, NOWHERE) && Extends(r, x)
    requires HeadOf(r) == Some(0) && BranchName(r) == "main" && 0 in x.commits
    requires x.head == OnBranch("main") && x.refs == map[Branch("main") := 1] && x.next == 2
    requires AmendCommit(x, paths).Some? && Covers(paths, x)
    ensures Amends(r, script, paths, 0, "main") && Played(r, script, 4) == x
  {
    hide Extends;
    hide ChangedPaths;
    hide AmendCommit;
    hide Reaches;
    Paused(r, script, 1);
    Paused(r, script, 2);
    Struck(r, script, 2, x);
    FourthAwait(r, script);
    assert Drop(script, 3) == [] && Drop(script, 4) == [];
  }

  /** An amend of commit 1 keeps its files, among them one that commit 0 does not have. */
  lemma AmendedOnOne(r: Repo, tree: Tree, beside: Tree, paths: seq<Path>)
    requires r.commits == map[0 := Commit([], tree, ""), 1 := Commit([], beside, "")] && r.next == 2
    requires r.head == OnBranch("main") && r.refs == map[Branch("main") := 1]
    requires OTHER !in tree && OTHER in beside && OTHER !in paths && AmendCommit(r, paths).Some?
    ensures var q := AmendCommit(r, paths).value;
            && HeadOf(q) == Some(2) && 2 in q.commits && OTHER in q.commits[2].tree && OTHER !in TreeOf(q, 0)
            && !IsolatedCommit(q, 2, 0, paths, AmendSessionWip)
  {
    hide ChangedPaths;
    PutAllAt(beside, paths, r.work, OTHER);
  }

  lemma PathsDiffer()
    ensures FILE != OTHER && FILE != TARGET && TARGET != OTHER
    ensures OTHER !in [FILE] && OTHER !in [FILE, TARGET]
  {
    assert FILE[0] != OTHER[0] && FILE[0] != TARGET[0] && TARGET[0] != OTHER[0];
  }

  lemma AmendStates()
    ensures ChangedPaths(WRITTEN) == {FILE} && AddPath(WRITTEN, FILE) == Some(ADDED)
    ensures Covers([FILE], REMOVED) && Covers([FILE, TARGET], MOVED)
    ensures AmendCommit(STAGED, [FILE]).Some? && AmendCommit(REMOVED_ELSEWHERE, [FILE]).Some?
    ensures AmendCommit(MOVED_ELSEWHERE, [FILE, TARGET]).Some?
  {
    PathsDiffer();
    ChangedOnly(WRITTEN, FILE);
    assert AddPath(WRITTEN, FILE).value.index == ADDED.index;
    assert FILE in [FILE] && FILE in [FILE, TARGET] && TARGET in [FILE, TARGET];
    forall p | p in ChangedPaths(REMOVED) ensures p in [FILE] { assert IsChanged(REMOVED, p); }
    forall p | p in ChangedPaths(MOVED) ensures p in [FILE, TARGET] { assert IsChanged(MOVED, p); }
  }

  /** The first nine awaits of an amending write disturb nothing. */
  lemma AmendingWrite(script: seq<Interference>)
    requires script == [PAUSE, PAUSE, PAUSE, PAUSE, PAUSE, PAUSE, PAUSE, PAUSE, PAUSE, Interference(STAGED, Completes)]
    ensures CleanOn(EMPTY_START, script, 0) && Played(EMPTY_START, script, 3) == EMPTY_START
    ensures Write(EMPTY_START, FILE, "x") == WRITTEN
    ensures var rest := Drop(script, 3);
            && Adds(WRITTEN, rest, FILE, 0) && AddPath(Played(WRITTEN, rest, 4), FILE) == Some(ADDED)
            && Amends(ADDED, Drop(rest, 4), [FILE], 0, "main") && Played(ADDED, Drop(rest, 4), 4) == STAGED
  {
    hide Extends;
    hide Complete;
    hide Played;
    hide Reached;
    hide FateOf;
    hide ChangedPaths;
    hide AmendCommit;
    hide AddPath;
    hide Amends;
    AmendStates();
    SwitchIsIsolated();
    var rest := Drop(script, 3);
    TwoCommitsExtend(map[], ONE, 0, map[], map[], 0, map[], map[]);
    TwoCommitsExtend(map[], ONE, 0, map[], WRITTEN.work, 0, map[], map[]);
    TwoCommitsExtend(map[], ONE, 0, ADDED.index, ADDED.work, 1, STAGED.index, STAGED.work);
    PausedThrice(EMPTY_START, script);
    PausedThrice(WRITTEN, rest);
    PausedOnce(WRITTEN, Drop(rest, 3));
    FourthAwait(WRITTEN, rest);
    AmendScript(ADDED, STAGED, [FILE], Drop(rest, 4));
  }

  /** With a tenth disturbed await others can have their own commit amended. */
  method TenthAwaitAmendsAnotherCommit() returns (work: Workspace, tip: CommitId)
    ensures fresh(work) && RunOf(work, EMPTY_START, 10)
    ensures HeadOf(work.repo) == Some(tip) && tip != 0 && !IsolatedCommit(work.repo, tip, 0, [FILE], AmendSessionWip)
    ensures OTHER in TreeOf(work.repo, tip) && OTHER !in TreeOf(work.repo, 0)
  {
    hide Extends;
    hide WellFormed;
    hide Accounted;
    hide ChangedPaths;
    hide MutationOutcome;
    hide IsolatedCommit;
    hide Adds;
    hide Amends;
    hide CleanOn;
    hide Played;
    hide Write;
    hide AddPath;
    hide AmendCommit;
    hide TreeOf;
    hide HeadOf;
    hide TwoCommits;
    var script := [PAUSE, PAUSE, PAUSE, PAUSE, PAUSE, PAUSE, PAUSE, PAUSE, PAUSE, Interference(STAGED, Completes)];
    StartsWell();
    AmendingWrite(script);
    work := new Workspace(EMPTY_START, script);
    var git := new GitGuard(work);
    var r := git.CommitFileBytes(FILE, "x", 0, "d", Some(false), AmendSessionWip, "s", "main", Disk(true, true));
    tip := r.value;
    AmendsElsewhere(work.repo, STAGED, [FILE]);
  }

  lemma AmendsElsewhere(q: Repo, r: Repo, paths: seq<Path>)
    requires Some(q) == AmendCommit(r, paths)
    requires (r == STAGED && paths == [FILE]) || (r == REMOVED_ELSEWHERE && paths == [FILE])
             || (r == MOVED_ELSEWHERE && paths == [FILE, TARGET])
    ensures r.next == 2 && HeadOf(q) == Some(2) && !IsolatedCommit(q, 2, 0, paths, AmendSessionWip)
    ensures OTHER in TreeOf(q, 2) && OTHER !in TreeOf(q, 0)
  {
    hide ChangedPaths;
    hide IsolatedCommit;
    hide AmendCommit;
    PathsDiffer();
    AmendedOnOne(r, TreeOf(r, 0), TreeOf(r, 1), paths);
  }

  lemma AmendingDeletion(script: seq<Interference>)
    requires script == [PAUSE, PAUSE, PAUSE, PAUSE, PAUSE, PAUSE, PAUSE, PAUSE, PAUSE,
                        Interference(REMOVED_ELSEWHERE, Completes)]
    ensures CleanOn(FILE_START, script, 0) && Played(FILE_START, script, 3) == FILE_START
    ensures Reached(FILE_START, Drop(script, 3)) == FILE_START && FateOf(Drop(script, 3)) == Completes
    ensures var rest := Drop(Drop(script, 3), 1);
            && Passes(REMOVED, rest, [FILE], 0) && Played(REMOVED, rest, 3) == REMOVED
            && Amends(REMOVED, Drop(rest, 3), [FILE], 0, "main") && Played(REMOVED, Drop(rest, 3), 4) == REMOVED_ELSEWHERE
  {
    hide Extends;
    hide Complete;
    hide Played;
    hide Reached;
    hide FateOf;
    hide ChangedPaths;
    hide AmendCommit;
    hide Apply;
    hide Amends;
    AmendStates();
    RemovalStates();
    var rest := Drop(Drop(script, 3), 1);
    TwoCommitsExtend(FIRST, BOTH, 0, FIRST, FIRST, 0, FIRST, FIRST);
    TwoCommitsExtend(FIRST, BOTH, 0, map[], map[], 1, ONE, ONE);
    PausedThrice(FILE_START, script);
    PausedOnce(FILE_START, Drop(script, 3));
    PausedThrice(REMOVED, rest);
    AmendScript(REMOVED, REMOVED_ELSEWHERE, [FILE], Drop(rest, 3));
  }

  /** So it is when a deletion amends. */
  method TenthAwaitAmendsAnotherDeletion() returns (work: Workspace, tip: CommitId)
    ensures fresh(work) && RunOf(work, FILE_START, 10)
    ensures HeadOf(work.repo) == Some(tip) && tip != 0 && !IsolatedCommit(work.repo, tip, 0, [FILE], AmendSessionWip)
    ensures OTHER in TreeOf(work.repo, tip) && OTHER !in TreeOf(work.repo, 0)
  {
    hide Extends;
    hide WellFormed;
    hide Accounted;
    hide ChangedPaths;
    hide MutationOutcome;
    hide IsolatedCommit;
    hide Passes;
    hide Amends;
    hide CleanOn;
    hide Played;
    hide Apply;
    hide AmendCommit;
    hide TreeOf;
    hide HeadOf;
    hide TwoCommits;
    var script := [PAUSE, PAUSE, PAUSE, PAUSE, PAUSE, PAUSE, PAUSE, PAUSE, PAUSE,
                   Interference(REMOVED_ELSEWHERE, Completes)];
    FileStartsWell();
    AmendingDeletion(script);
    RemovalStates();
    work := new Workspace(FILE_START, script);
    var git := new GitGuard(work);
    var r := git.DeleteTrackedFile(FILE, 0, "d", AmendSessionWip, "s", "main");
    tip := r.value;
    AmendsElsewhere(work.repo, REMOVED_ELSEWHERE, [FILE]);
  }

  lemma AmendingMove(script: seq<Interference>)
    requires script == [PAUSE, PAUSE, PAUSE, PAUSE, PAUSE, PAUSE, PAUSE, PAUSE, PAUSE,
                        Interference(MOVED_ELSEWHERE, Completes)]
    ensures CleanOn(FILE_START, script, 0) && Played(FILE_START, script, 3) == FILE_START
    ensures Reached(FILE_START, Drop(script, 3)) == FILE_START && FateOf(Drop(script, 3)) == Completes
    ensures var rest := Drop(Drop(script, 3), 1);
            && Passes(MOVED, rest, [FILE, TARGET], 0) && Played(MOVED, rest, 3) == MOVED
            && Amends(MOVED, Drop(rest, 3), [FILE, TARGET], 0, "main") && Played(MOVED, Drop(rest, 3), 4) == MOVED_ELSEWHERE
  {
    hide Extends;
    hide Complete;
    hide Played;
    hide Reached;
    hide FateOf;
    hide ChangedPaths;
    hide AmendCommit;
    hide Apply;
    hide Amends;
    AmendStates();
    MoveStates();
    MoveCommits();
    var rest := Drop(Drop(script, 3), 1);
    TwoCommitsExtend(FIRST, BOTH, 0, FIRST, FIRST, 0, FIRST, FIRST);
    TwoCommitsExtend(FIRST, BOTH, 0, MOVED_FILE, MOVED_FILE, 1, MOVED_ELSEWHERE.index, MOVED_ELSEWHERE.work);
    PausedThrice(FILE_START, script);
    PausedOnce(FILE_START, Drop(script, 3));
    PausedThrice(MOVED, rest);
    AmendScript(MOVED, MOVED_ELSEWHERE, [FILE, TARGET], Drop(rest, 3));
  }

  /** And when a move does. */
  method TenthAwaitAmendsAnotherMove() returns (work: Workspace, tip: CommitId)
    ensures fresh(work) && RunOf(work, FILE_START, 10)
    ensures HeadOf(work.repo) == Some(tip) && tip != 0
    ensures !IsolatedCommit(work.repo, tip, 0, [FILE, TARGET], AmendSessionWip)
    ensures OTHER in TreeOf(work.repo, tip) && OTHER !in TreeOf(work.repo, 0)
  {
    hide Extends;
    hide WellFormed;
    hide Accounted;
    hide ChangedPaths;
    hide MutationOutcome;
    hide IsolatedCommit;
    hide Passes;
    hide Amends;
    hide CleanOn;
    hide Played;
    hide Apply;
    hide AmendCommit;
    hide TreeOf;
    hide HeadOf;
    hide TwoCommits;
    var script := [PAUSE, PAUSE, PAUSE, PAUSE, PAUSE, PAUSE, PAUSE, PAUSE, PAUSE,
                   Interference(MOVED_ELSEWHERE, Completes)];
    MoveStartsWell();
    AmendingMove(script);
    MoveStates();
    work := new Workspace(FILE_START, script);
    var git := new GitGuard(work);
    var r := git.MoveTrackedFile(FILE, TARGET, 0, "d", AmendSessionWip, "s", "main");
    tip := r.value;
    AmendsElsewhere(work.repo, MOVED_ELSEWHERE, [FILE, TARGET]);
  }
}
