/** An abstract Git repository: immutable commits, refs, HEAD, index and worktree, and what each Git
    command of `git_guard.py` does to them. */
module Repository {
  import opened Basics

  datatype Commit = Commit(parents: seq<CommitId>, tree: Tree, message: string)

  /** Full ref names; a tag is taken to name the commit it peels to. */
  datatype RefName =
    | Branch(name: string) | Remote(name: string) | Tag(name: string)
    | CheckpointRef(checkpoint: Id) | OtherRef(name: string)

  datatype Head = OnBranch(name: string) | Detached(at: CommitId)

  /** `ignored` holds the paths that exclusion rules hide while they are untracked; every commit is
      numbered below `next`. */
  datatype Repo = Repo(
    commits: map<CommitId, Commit>, refs: map<RefName, CommitId>, head: Head,
    index: Tree, work: Tree, ignored: set<Path>, next: CommitId)

  predicate WellFormed(r: Repo) {
    && (forall c :: c in r.commits ==> c < r.next)
    && (forall c, k :: c in r.commits && 0 <= k < |r.commits[c].parents| ==>
          r.commits[c].parents[k] in r.commits && r.commits[c].parents[k] < c)
    && (forall n :: n in r.refs ==> r.refs[n] in r.commits)
    && (r.head.Detached? ==> r.head.at in r.commits)
  }

  /** What any actor may do: commits are never changed, and their numbers never reused. */
  predicate Extends(a: Repo, b: Repo) {
    && WellFormed(a) && WellFormed(b)
    && a.next <= b.next
    && (forall c :: c in a.commits ==> c in b.commits && b.commits[c] == a.commits[c])
    && (forall c :: c in b.commits && c < a.next ==> c in a.commits)
  }

  // ---------------------------------------------------------------- reading

  /** None on an unborn branch, where `rev-parse HEAD` fails. */
  function HeadOf(r: Repo): Option<CommitId> {
    match r.head
    case OnBranch(name) => Lookup(r.refs, Branch(name))
    case Detached(c) => Some(c)
  }

  function BranchName(r: Repo): string {
    match r.head
    case OnBranch(name) => name
    case Detached(_) => "HEAD"
  }

  function TreeOf(r: Repo, c: CommitId): Tree {
    if c in r.commits then r.commits[c].tree else map[]
  }

  function HeadTree(r: Repo): Tree {
    if HeadOf(r).Some? then TreeOf(r, HeadOf(r).value) else map[]
  }

  /** The paths on which two trees differ. */
  function ChangedBetween(a: Tree, b: Tree): set<Path> {
    set p | p in a.Keys + b.Keys && Lookup(a, p) != Lookup(b, p)
  }

  /** A path that differs between HEAD and index, or between index and worktree, or that is untracked
      and not ignored. */
  predicate IsChanged(r: Repo, p: Path) {
    || Lookup(HeadTree(r), p) != Lookup(r.index, p)
    || (if p in r.index then Lookup(r.work, p) != Some(r.index[p]) else p in r.work && p !in r.ignored)
  }

  function ChangedPaths(r: Repo): set<Path> {
    set p | p in HeadTree(r).Keys + r.index.Keys + r.work.Keys && IsChanged(r, p)
  }

  /** `ancestor` is `c` or one of its ancestors. */
  predicate Reaches(commits: map<CommitId, Commit>, c: CommitId, ancestor: CommitId)
    decreases c
  {
    c == ancestor
    || (c in commits && exists k :: 0 <= k < |commits[c].parents| && commits[c].parents[k] < c
                                    && Reaches(commits, commits[c].parents[k], ancestor))
  }

  predicate Published(n: RefName) {
    n.Branch? || n.Remote? || n.Tag?
  }

  /** The published refs other than the current branch from which `head` can be reached. A detached
      HEAD has no current branch, so there every branch counts. */
  function SharedRefs(r: Repo, head: CommitId, branch: string): set<RefName> {
    set n | n in r.refs && Published(n) && Reaches(r.commits, r.refs[n], head)
            && !(branch != "HEAD" && n == Branch(branch))
  }

  /** Each commit of the path is a parent of the one before it. */
  predicate ParentPath(commits: map<CommitId, Commit>, path: seq<CommitId>) {
    forall i :: 0 <= i < |path| - 1 ==> path[i] in commits && path[i + 1] in commits[path[i]].parents
  }

  /** A path of parents leads from `c` to `ancestor`. */
  ghost predicate LeadsTo(commits: map<CommitId, Commit>, c: CommitId, ancestor: CommitId) {
    exists path: seq<CommitId> | ParentPath(commits, path) ::
      path != [] && path[0] == c && path[|path| - 1] == ancestor
  }

  /** A ref that others share: a remote ref, a tag, or a branch other than the current one. A detached HEAD has
      no current branch. */
  predicate SharedName(n: RefName, branch: string) {
    match n
    case Remote(_) => true
    case Tag(_) => true
    case Branch(name) => branch == "HEAD" || name != branch
    case CheckpointRef(_) => false
    case OtherRef(_) => false
  }

  /** From no such ref does a path of parents lead to `head`. */
  ghost predicate Unshared(r: Repo, head: CommitId, branch: string) {
    forall n :: n in r.refs && SharedName(n, branch) ==> !LeadsTo(r.commits, r.refs[n], head)
  }

  // ---------------------------------------------------------------- writing

  function Put(t: Tree, p: Path, content: Option<string>): Tree {
    if content.Some? then t[p := content.value] else t - {p}
  }

  function PutAll(t: Tree, paths: seq<Path>, source: Tree): Tree {
    if paths == [] then t
    else Put(PutAll(t, paths[..|paths| - 1], source), paths[|paths| - 1], Lookup(source, paths[|paths| - 1]))
  }

  function Write(r: Repo, p: Path, content: string): Repo {
    r.(work := r.work[p := content])
  }

  /** `git add -- p`; None when the command refuses. */
  function AddPath(r: Repo, p: Path): Option<Repo> {
    if p in r.index || (p in r.work && p !in r.ignored)
    then Some(r.(index := Put(r.index, p, Lookup(r.work, p)))) else None
  }

  /** HEAD, or the branch it is on, now names `c`. */
  function MoveHead(r: Repo, c: CommitId): Repo {
    match r.head
    case OnBranch(name) => r.(refs := r.refs[Branch(name) := c])
    case Detached(_) => r.(head := Detached(c))
  }

  predicate Tracked(r: Repo, paths: seq<Path>) {
    forall p :: p in paths ==> p in r.index || p in HeadTree(r)
  }

  /** A new commit of HEAD's tree with only `paths` taken from the worktree. */
  function CommitOnly(r: Repo, paths: seq<Path>, parents: seq<CommitId>, message: string): Repo {
    var c := r.next;
    var committed := r.(commits := r.commits[c := Commit(parents, PutAll(HeadTree(r), paths, r.work), message)],
                        index := PutAll(r.index, paths, r.work), next := c + 1);
    MoveHead(committed, c)
  }

  /** `git commit -m message --only -- paths`; refuses to record no change. */
  function CreateCommit(r: Repo, paths: seq<Path>, message: string): Option<Repo> {
    var h := HeadOf(r);
    if h.None? || h.value !in r.commits || !Tracked(r, paths) || PutAll(HeadTree(r), paths, r.work) == HeadTree(r)
    then None
    else Some(CommitOnly(r, paths, [h.value], message))
  }

  /** `git commit --amend --no-edit --allow-empty --only -- paths`. */
  function AmendCommit(r: Repo, paths: seq<Path>): Option<Repo> {
    var h := HeadOf(r);
    if h.None? || h.value !in r.commits || !Tracked(r, paths) then None
    else Some(CommitOnly(r, paths, r.commits[h.value].parents, r.commits[h.value].message))
  }

  /** `git mv -- source destination`. */
  function MovePath(r: Repo, source: Path, destination: Path): Option<Repo> {
    if source !in r.index || source !in r.work || destination in r.work || destination in r.index then None
    else Some(r.(index := (r.index - {source})[destination := r.index[source]],
                 work := (r.work - {source})[destination := r.work[source]]))
  }

  /** `git rm -- p`; refuses to lose content that HEAD does not hold. */
  function RemovePath(r: Repo, p: Path): Option<Repo> {
    if p !in r.index || (p in r.work && !(r.work[p] == r.index[p] && Lookup(HeadTree(r), p) == Some(r.index[p])))
    then None
    else Some(r.(index := r.index - {p}, work := r.work - {p}))
  }

  /** No file is also a directory. */
  predicate PrefixFree(t: Tree) {
    forall p, q :: p in t && q in t && p <= q ==> p == q
  }

  /** The path, or a directory or file above or below it, is a file of the tree. */
  predicate InTheWay(p: Path, t: Tree) {
    exists q :: q in t && (p <= q || q <= p)
  }

  /** The untracked files that a checkout of `t` leaves alone. */
  function Untouched(r: Repo, t: Tree): Tree {
    map p | p in r.work && p !in r.index && !InTheWay(p, t) :: r.work[p]
  }

  /** `git reset --hard c`: tracked files become those of `c`; untracked files and directories in their
      way are deleted, and other untracked files stay. */
  function ResetHard(r: Repo, c: CommitId): Repo {
    MoveHead(r.(index := TreeOf(r, c), work := Untouched(r, TreeOf(r, c)) + TreeOf(r, c)), c)
  }

  function SetRef(r: Repo, n: RefName, c: CommitId): Option<Repo> {
    if c in r.commits then Some(r.(refs := r.refs[n := c])) else None
  }

  function DeleteRef(r: Repo, n: RefName): Repo {
    r.(refs := r.refs - {n})
  }

  /** `q` is `r` up to index, worktree and the one checkpoint ref `c`. */
  predicate TipsKept(r: Repo, q: Repo, c: Id) {
    && q.commits == r.commits && q.head == r.head && q.next == r.next
    && q.refs - {CheckpointRef(c)} == r.refs - {CheckpointRef(c)}
  }

  // ---------------------------------------------------------------- laws

  /** Checkpoint refs are never published. */
  lemma CheckpointRefsShareNothing(r: Repo, q: Repo, c: Id, head: CommitId, branch: string)
    requires TipsKept(r, q, c)
    ensures SharedRefs(q, head, branch) == SharedRefs(r, head, branch)
    ensures Unshared(q, head, branch) <==> Unshared(r, head, branch)
    ensures HeadOf(q) == HeadOf(r) && BranchName(q) == BranchName(r)
  {
    hide LeadsTo;
    hide Reaches;
    assert forall n :: n != CheckpointRef(c) ==>
      (n in r.refs <==> n in r.refs - {CheckpointRef(c)}) && (n in q.refs <==> n in q.refs - {CheckpointRef(c)});
    assert forall n :: n != CheckpointRef(c) && n in r.refs ==>
      r.refs[n] == (r.refs - {CheckpointRef(c)})[n] == (q.refs - {CheckpointRef(c)})[n] == q.refs[n];
  }

  lemma ChangedMeans(a: Tree, b: Tree)
    ensures forall p :: p in ChangedBetween(a, b) <==> Lookup(a, p) != Lookup(b, p)
  {
  }

  lemma HeadIsCommit(r: Repo)
    requires WellFormed(r)
    ensures HeadOf(r).Some? ==> HeadOf(r).value in r.commits
  {
  }

  lemma ExtendsSelf(r: Repo)
    requires WellFormed(r)
    ensures Extends(r, r)
  {
  }

  lemma ExtendsMeans(a: Repo, b: Repo)
    requires Extends(a, b)
    ensures WellFormed(a) && WellFormed(b) && a.next <= b.next
    ensures forall c :: c in a.commits ==> c in b.commits && b.commits[c] == a.commits[c]
  {
  }

  lemma ExtendsTransitive(a: Repo, b: Repo, c: Repo)
    requires Extends(a, b) && Extends(b, c)
    ensures Extends(a, c)
  {
  }

  /** A commit only reaches commits of no greater number. */
  lemma {:induction false} ReachesDown(commits: map<CommitId, Commit>, c: CommitId, ancestor: CommitId)
    requires Reaches(commits, c, ancestor)
    ensures ancestor <= c
    decreases c
  {
    if c != ancestor {
      var k :| 0 <= k < |commits[c].parents| && commits[c].parents[k] < c
               && Reaches(commits, commits[c].parents[k], ancestor);
      ReachesDown(commits, commits[c].parents[k], ancestor);
    }
  }

  /** To reach a commit is to have a path of parents to it. */
  lemma ReachesByPath(r: Repo, c: CommitId, ancestor: CommitId)
    requires WellFormed(r)
    ensures Reaches(r.commits, c, ancestor) <==> LeadsTo(r.commits, c, ancestor)
  {
    if Reaches(r.commits, c, ancestor) {
      var path := PathOf(r.commits, c, ancestor);
    }
    if LeadsTo(r.commits, c, ancestor) {
      var path :| ParentPath(r.commits, path) && path != [] && path[0] == c && path[|path| - 1] == ancestor;
      ReachedAlong(r, path);
    }
  }

  lemma {:induction false} PathOf(commits: map<CommitId, Commit>, c: CommitId, ancestor: CommitId)
    returns (path: seq<CommitId>)
    requires Reaches(commits, c, ancestor)
    ensures ParentPath(commits, path) && path != [] && path[0] == c && path[|path| - 1] == ancestor
    decreases c
  {
    if c == ancestor {
      path := [c];
    } else {
      var k :| 0 <= k < |commits[c].parents| && commits[c].parents[k] < c
               && Reaches(commits, commits[c].parents[k], ancestor);
      var rest := PathOf(commits, commits[c].parents[k], ancestor);
      path := [c] + rest;
    }
  }

  lemma {:induction false} ReachedAlong(r: Repo, path: seq<CommitId>)
    requires WellFormed(r) && ParentPath(r.commits, path) && path != []
    ensures Reaches(r.commits, path[0], path[|path| - 1])
    decreases |path|
  {
    if |path| > 1 {
      var rest := path[1..];
      forall i | 0 <= i < |rest| - 1 ensures rest[i] in r.commits && rest[i + 1] in r.commits[rest[i]].parents {
        assert rest[i] == path[i + 1] && rest[i + 1] == path[i + 1 + 1];
      }
      ReachedAlong(r, rest);
      var k :| 0 <= k < |r.commits[path[0]].parents| && r.commits[path[0]].parents[k] == path[1];
      assert Reaches(r.commits, r.commits[path[0]].parents[k], path[|path| - 1]);
    }
  }

  /** The refs that share a commit are exactly the shared names from which a path of parents leads to it. */
  lemma SharedByPath(r: Repo, head: CommitId, branch: string)
    requires WellFormed(r)
    ensures forall n :: n in SharedRefs(r, head, branch) <==>
                          n in r.refs && SharedName(n, branch) && LeadsTo(r.commits, r.refs[n], head)
    ensures SharedRefs(r, head, branch) == {} <==> Unshared(r, head, branch)
  {
    hide LeadsTo;
    hide Reaches;
    hide WellFormed;
    forall n ensures n in SharedRefs(r, head, branch) <==>
                       n in r.refs && SharedName(n, branch) && LeadsTo(r.commits, r.refs[n], head)
    {
      if n in r.refs { ReachesByPath(r, r.refs[n], head); }
    }
  }

  lemma CommitExtends(r: Repo, paths: seq<Path>, parents: seq<CommitId>, message: string)
    requires WellFormed(r) && HeadOf(r).Some? && HeadOf(r).value in r.commits
    requires forall k :: 0 <= k < |parents| ==> parents[k] in r.commits
    ensures var t := CommitOnly(r, paths, parents, message);
            && Extends(r, t)
            && HeadOf(t) == Some(r.next) && BranchName(t) == BranchName(r)
            && t.commits[r.next] == Commit(parents, PutAll(HeadTree(r), paths, r.work), message)
  {
  }

  lemma WriteExtends(r: Repo, p: Path, content: string)
    requires WellFormed(r)
    ensures Extends(r, Write(r, p, content))
  {
  }

  lemma IndexStepsExtend(r: Repo, p: Path, destination: Path)
    requires WellFormed(r)
    ensures AddPath(r, p).Some? ==> Extends(r, AddPath(r, p).value)
    ensures MovePath(r, p, destination).Some? ==> Extends(r, MovePath(r, p, destination).value)
    ensures RemovePath(r, p).Some? ==> Extends(r, RemovePath(r, p).value)
  {
  }

  lemma CommitsExtend(r: Repo, paths: seq<Path>, message: string)
    requires WellFormed(r)
    ensures CreateCommit(r, paths, message).Some? ==> Extends(r, CreateCommit(r, paths, message).value)
    ensures AmendCommit(r, paths).Some? ==> Extends(r, AmendCommit(r, paths).value)
  {
    hide Extends;
    if HeadOf(r).Some? && HeadOf(r).value in r.commits {
      var tip := r.commits[HeadOf(r).value];
      CommitExtends(r, paths, [HeadOf(r).value], message);
      CommitExtends(r, paths, tip.parents, tip.message);
    }
  }

  lemma ResetExtends(r: Repo, n: RefName)
    requires WellFormed(r) && HeadOf(r).Some? && n in r.refs
    ensures Extends(r, ResetHard(r, r.refs[n]))
  {
  }

  lemma RefStepsExtend(r: Repo, n: RefName, c: CommitId)
    requires WellFormed(r)
    ensures SetRef(r, n, c).Some? ==> Extends(r, SetRef(r, n, c).value)
    ensures Extends(r, DeleteRef(r, n))
  {
  }

  /** Committing every changed path leaves nothing changed. */
  lemma CommitOnlyCleans(r: Repo, paths: seq<Path>, parents: seq<CommitId>, message: string)
    requires forall p :: p in ChangedPaths(r) ==> p in paths
    ensures ChangedPaths(CommitOnly(r, paths, parents, message)) == {}
  {
    var t := CommitOnly(r, paths, parents, message);
    assert HeadTree(t) == PutAll(HeadTree(r), paths, r.work);
    forall p ensures !IsChanged(t, p) {
      PutAllAt(HeadTree(r), paths, r.work, p);
      PutAllAt(r.index, paths, r.work, p);
      if p !in paths {
        assert p !in ChangedPaths(r);
        assert Lookup(HeadTree(t), p) == Lookup(HeadTree(r), p) && Lookup(t.index, p) == Lookup(r.index, p);
        assert p !in HeadTree(r).Keys + r.index.Keys + r.work.Keys || !IsChanged(r, p);
      }
    }
  }

  lemma {:induction false} PutAllAt(t: Tree, paths: seq<Path>, source: Tree, p: Path)
    ensures Lookup(PutAll(t, paths, source), p) == if p in paths then Lookup(source, p) else Lookup(t, p)
  {
    if paths != [] {
      var prefix, last := paths[..|paths| - 1], paths[|paths| - 1];
      PutAllAt(t, prefix, source, p);
      assert paths == prefix + [last];
    }
  }

  /** A clean repository: the index is HEAD's tree, tracked files are unmodified, and every untracked
      file is ignored. */
  lemma CleanMeans(r: Repo)
    ensures ChangedPaths(r) == {} <==>
              r.index == HeadTree(r)
              && (forall p :: p in r.index ==> p in r.work && r.work[p] == r.index[p])
              && (forall p :: p in r.work && p !in r.index ==> p in r.ignored)
  {
    if ChangedPaths(r) == {} {
      forall p ensures Lookup(r.index, p) == Lookup(HeadTree(r), p) && !IsChanged(r, p) {
        assert p !in ChangedPaths(r);
      }
      TreesEqual(r.index, HeadTree(r));
      forall p | p in r.index ensures p in r.work && r.work[p] == r.index[p] {
        assert !IsChanged(r, p);
      }
      forall p | p in r.work && p !in r.index ensures p in r.ignored {
        assert !IsChanged(r, p);
      }
    } else {
      var p :| p in ChangedPaths(r);
      assert IsChanged(r, p);
    }
  }

  lemma TreesEqual(a: Tree, b: Tree)
    requires forall p :: Lookup(a, p) == Lookup(b, p)
    ensures a == b
  {
    assert forall p :: p in a <==> Lookup(a, p).Some?;
    assert forall p :: p in b <==> Lookup(b, p).Some?;
    assert forall p :: p in a ==> a[p] == Lookup(a, p).value;
  }
}
