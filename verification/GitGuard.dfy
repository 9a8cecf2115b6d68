/** `git_guard.py`: the three file mutations. Each writes, checks what it wrote, commits only its own
    paths and checks the result; once it has changed anything, every failure is reported as unknown. */
module GitGuards {
  import opened Basics
  import opened Repository
  import opened Footers
  import opened ReplayKeys
  import opened Workspaces
  import opened PathPolicy
  import StoreModel

  predicate IsCommit(e: Effect) {
    e.command.GitCommit? || e.command.GitAmend?
  }

  /** The new effects are those of a mutation: nothing is committed but `paths`, in `mode`. */
  ghost predicate OnlyCommits(effects: seq<Effect>, from: nat, paths: seq<Path>, mode: CommitMode,
                              message: string, head: CommitId, branch: string)
  {
    forall i :: from <= i < |effects| && IsCommit(effects[i]) ==>
      CommitEffect(effects[i], paths, mode, message, head, branch)
  }

  predicate NoCommit(effects: seq<Effect>, from: nat) {
    forall i :: from <= i < |effects| ==> !IsCommit(effects[i])
  }

  ghost predicate NoCommitSince(was: seq<Effect>, now: seq<Effect>) {
    was <= now && NoCommit(now, |was|)
  }

  /** The new tip: clean, with HEAD's old tree but for `paths`. */
  ghost predicate IsolatedCommit(r: Repo, tip: CommitId, head: CommitId, paths: seq<Path>, mode: CommitMode) {
    && HeadOf(r) == Some(tip) && tip in r.commits && head in r.commits && tip != head
    && ChangedPaths(r) == {}
    && (forall p :: p !in paths ==> Lookup(r.commits[tip].tree, p) == Lookup(r.commits[head].tree, p))
    && r.commits[tip].parents == match mode case Create => [head] case AmendSessionWip => r.commits[head].parents
  }

  /** What an undisturbed commit makes of the repository it found. */
  ghost predicate Committed(r: Repo, q: Repo, paths: seq<Path>, mode: CommitMode, message: string) {
    && HeadOf(r).Some? && HeadOf(r).value in r.commits
    && var tip := r.commits[HeadOf(r).value];
    q == match mode
         case Create => CommitOnly(r, paths, [HeadOf(r).value], message)
         case AmendSessionWip => CommitOnly(r, paths, tip.parents, tip.message)
  }

  /** Commits, refs and HEAD as they were. */
  predicate SameTips(r: Repo, q: Repo) {
    q.commits == r.commits && q.refs == r.refs && q.head == r.head && q.next == r.next
  }

  /** Exactly one new commit, which HEAD now names, made in `mode` from HEAD. */
  ghost predicate OneNewTip(r: Repo, q: Repo, mode: CommitMode, message: string) {
    && HeadOf(r).Some? && HeadOf(r).value in r.commits
    && var tip := r.commits[HeadOf(r).value];
    && r.next in q.commits
    && SameTips(MoveHead(r.(commits := r.commits[r.next := q.commits[r.next]], next := r.next + 1), r.next), q)
    && q.commits[r.next].parents == (match mode case Create => [HeadOf(r).value] case AmendSessionWip => tip.parents)
    && q.commits[r.next].message == (match mode case Create => message case AmendSessionWip => tip.message)
  }

  /** What every file mutation promises, from `before` with `script` to come, to `after`:
      an error other than unknown means that the Bridge changed nothing; it commits only its paths,
      in its mode; it returns the old head only if it committed nothing; with at most `grace` awaits
      disturbed the new commit is isolated; and undisturbed it makes one new tip or none. */
  ghost predicate MutationOutcome(before: Repo, script: seq<Interference>, was: seq<Effect>,
                                  after: Repo, now: seq<Effect>, r: Result<CommitId, ErrorCode>,
                                  paths: seq<Path>, mode: CommitMode, message: string,
                                  head: CommitId, branch: string, grace: nat)
  {
    && was <= now
    && (r.Err? && r.error != UnknownSideEffect ==> now == was)
    && OnlyCommits(now, |was|, paths, mode, message, head, branch)
    && (r.Ok? && r.value == head ==> NoCommit(now, |was|))
    && (r.Ok? && r.value != head && |script| <= grace ==> IsolatedCommit(after, r.value, head, paths, mode))
    && (script == [] ==>
          if r.Ok? && r.value != head then OneNewTip(before, after, mode, message) && r.value == before.next
          else SameTips(before, after))
  }

  /** The snapshot of a repository that does not change meanwhile. */
  function SnapshotOf(r: Repo): StoreModel.Snapshot
    requires HeadOf(r).Some?
  {
    StoreModel.Snapshot.Snapshot(BranchName(r), HeadOf(r).value, ChangedPaths(r) != {}, ChangedPaths(r), HeadTree(r), false)
  }

  /** Effects that only touch the ref are moves that only touch the ref. */
  lemma OnlyRefMoves(origin: Repo, script: seq<Interference>, was: History, now: History, c: Id)
    requires Accounted(origin, script, was) && Accounted(origin, script, now) && was.moves <= now.moves
    requires OnlyRefs(was.effects, now.effects, c)
    ensures OthersOrRef(was.moves, now.moves, c)
  {
    hide Accounted;
    hide RefEffect;
    OwnMoves(origin, script, was, now);
  }

  /** The files of the commit a checkpoint ref names. */
  function RefTree(r: Repo, c: Id): Tree {
    if CheckpointRef(c) in r.refs then TreeOf(r, r.refs[CheckpointRef(c)]) else map[]
  }

  /** `q` is `r` but for the one checkpoint ref. */
  predicate RefOnly(r: Repo, q: Repo, c: Id) {
    q.(refs := r.refs) == r && q.refs - {CheckpointRef(c)} == r.refs - {CheckpointRef(c)}
  }

  /** A command that set or deleted the checkpoint ref `c`, and changed nothing else. */
  predicate RefEffect(e: Effect, c: Id) {
    && (e.command.GitSetRef? || e.command.GitDropRef?) && e.command.checkpoint == c
    && RefOnly(e.before, e.after, c)
  }

  /** The new effects touch the checkpoint ref `c`, and nothing else. */
  predicate OnlyRefs(was: seq<Effect>, now: seq<Effect>, c: Id) {
    was <= now && forall i :: |was| <= i < |now| ==> RefEffect(now[i], c)
  }

  /** Since `was`, others moved, and the Bridge only touched the checkpoint ref `c`. */
  ghost predicate OthersOrRef(was: seq<Move>, now: seq<Move>, c: Id) {
    was <= now && forall i :: |was| <= i < |now| && now[i].Ours? ==> RefEffect(now[i].effect, c)
  }

  /** Once nobody else moves any more, moves that only touch the checkpoint ref `c` leave everything else of the
      repository as it was. */
  lemma {:induction false} OnlyRefMoved(origin: Repo, script: seq<Interference>, was: History, now: History, c: Id)
    requires Accounted(origin, script, was) && Accounted(origin, script, now) && was.moves <= now.moves
    requires OthersOrRef(was.moves, now.moves, c) && |script| <= |was.seen|
    ensures now.repo.commits == was.repo.commits && now.repo.head == was.repo.head && now.repo.next == was.repo.next
    ensures now.repo.index == was.repo.index && now.repo.work == was.repo.work && now.repo.ignored == was.repo.ignored
    ensures forall n: RefName :: n != CheckpointRef(c) ==> Lookup(now.repo.refs, n) == Lookup(was.repo.refs, n)
    decreases |now.moves|
  {
    hide Accounted;
    hide Apply;
    hide RefEffect;
    if was.moves == now.moves {
      SameHistory(origin, script, was, now);
    } else {
      var before := Earlier(origin, script, now);
      assert forall i :: 0 <= i < |before.moves| ==> now.moves[i] == before.moves[i];
      OnlyRefMoved(origin, script, was, before, c);
      OwnMoves(origin, script, was, before);
      var last := now.moves[|before.moves|];
      if last.Ours? {
        assert RefEffect(last.effect, c);
        RefEffectMeans(last.effect, c);
      } else {
        QuietMove(origin, script, before, now);
      }
    }
  }

  lemma RefEffectMeans(e: Effect, c: Id)
    requires RefEffect(e, c)
    ensures e.after == e.before.(refs := e.after.refs)
    ensures forall n: RefName :: n != CheckpointRef(c) ==> Lookup(e.after.refs, n) == Lookup(e.before.refs, n)
  {
    assert forall n: RefName :: n != CheckpointRef(c) ==>
      Lookup(e.after.refs, n) == Lookup(e.after.refs - {CheckpointRef(c)}, n)
      && Lookup(e.before.refs, n) == Lookup(e.before.refs - {CheckpointRef(c)}, n);
  }

  /** A move of others after the end of the script changes nothing. */
  lemma QuietMove(origin: Repo, script: seq<Interference>, before: History, now: History)
    requires Accounted(origin, script, now) && |now.moves| == |before.moves| + 1 && |script| <= |before.seen|
    requires now.moves == before.moves + [now.moves[|before.moves|]] && now.moves[|before.moves|].Others?
    requires now.moves[|before.moves|].start == before.repo && now.moves[|before.moves|].end == now.repo
    requires now.seen == before.seen + [now.repo]
    ensures now.repo == before.repo
  {
    assert Drop(script, |now.seen| - 1) == [];
  }

  predicate NoneSensitive(names: set<Path>) {
    forall p :: p in names ==> !IsSensitive(p)
  }

  /** A snapshot goes through: HEAD exists whenever it is read. */
  predicate Snaps(r: Repo, script: seq<Interference>) {
    Shows(r, script) && Complete(Drop(script, 3), 1) && HeadOf(Played(r, script, 4)).Some?
  }

  /** The two ends of a comparison exist. */
  predicate Comparable(r: Repo, c: Id, head: CommitId) {
    CheckpointRef(c) in r.refs && head in r.commits
  }

  /** Naming the differences goes through: both ends exist, and no name is sensitive. */
  predicate Names(r: Repo, script: seq<Interference>, c: Id, head: CommitId) {
    && FateOf(script) == Completes && Comparable(Reached(r, script), c, head)
    && NoneSensitive(ChangedBetween(RefTree(Reached(r, script), c), TreeOf(Reached(r, script), head)))
  }

  /** So does the diff: the names are asked for once more before it. */
  predicate Diffs(r: Repo, script: seq<Interference>, c: Id, head: CommitId) {
    && Names(r, script, c, head) && FateOf(Drop(script, 1)) == Completes
    && Comparable(Reached(Reached(r, script), Drop(script, 1)), c, head)
  }

  predicate IsDirectory(t: Tree, p: Path) {
    exists q :: q in t && p < q
  }

  /** Undisturbed enough for a status of a clean workspace on `head`. */
  predicate CleanOn(r: Repo, script: seq<Interference>, head: CommitId) {
    && Complete(script, 3)
    && HeadOf(Played(r, script, 1)).Some? && HeadOf(Played(r, script, 2)) == Some(head)
    && ChangedPaths(Played(r, script, 3)) == {}
  }

  /** An undisturbed new commit of `paths` goes through. */
  ghost predicate Commits(r: Repo, paths: seq<Path>, message: string, head: CommitId) {
    CreateCommit(r, paths, message).Some? && Covers(paths, r) && r.next != head
  }

  /** The check after a file command goes through, and so does the commit after it. */
  ghost predicate Checks(r: Repo, script: seq<Interference>, paths: seq<Path>, message: string, head: CommitId) {
    && Complete(script, 3) && Drop(script, 3) == []
    && HeadOf(Played(r, script, 1)).Some? && HeadOf(Played(r, script, 2)) == Some(head)
    && Commits(Played(r, script, 3), paths, message, head)
  }

  /** The check after the write goes through, and so do `git add` and the commit after it. */
  ghost predicate Stages(r: Repo, script: seq<Interference>, path: Path, message: string, head: CommitId) {
    && Complete(script, 4) && Drop(script, 4) == []
    && HeadOf(Played(r, script, 1)).Some? && HeadOf(Played(r, script, 2)) == Some(head)
    && ChangedPaths(Played(r, script, 3)) == {path}
    && AddPath(Played(r, script, 4), path).Some?
    && Commits(AddPath(Played(r, script, 4), path).value, [path], message, head)
  }

  /** An amend goes through: its recheck does, and nobody interferes after that. */
  ghost predicate Amends(r: Repo, script: seq<Interference>, paths: seq<Path>, head: CommitId, branch: string) {
    && Rechecks(r, script, head, branch) && Drop(script, 4) == []
    && var found := Played(r, script, 4);
    AmendCommit(found, paths).Some? && Covers(paths, found) && found.next != head
  }

  /** The check after a file command goes through. */
  predicate Passes(r: Repo, script: seq<Interference>, paths: seq<Path>, head: CommitId) {
    && Shows(r, script) && HeadOf(Played(r, script, 2)) == Some(head)
    && forall p :: p in ChangedPaths(Played(r, script, 3)) ==> p in paths
  }

  /** The check after the write goes through, and so does `git add`. */
  predicate Adds(r: Repo, script: seq<Interference>, path: Path, head: CommitId) {
    && Shows(r, script) && HeadOf(Played(r, script, 2)) == Some(head) && ChangedPaths(Played(r, script, 3)) == {path}
    && FateOf(Drop(script, 3)) == Completes && AddPath(Played(r, script, 4), path).Some?
  }

  /** How many disturbed awaits the isolation of a commit survives: an amend looks at HEAD again at its ninth
      await, a new commit never after the check that follows the file command. */
  function Grace(mode: CommitMode, created: nat): nat {
    match mode case Create => created case AmendSessionWip => 9
  }

  /** An amend of the expected head that leaves a clean workspace is isolated. */
  lemma AmendIsolated(r: Repo, q: Repo, paths: seq<Path>, message: string, head: CommitId)
    requires WellFormed(r) && Committed(r, q, paths, AmendSessionWip, message)
    requires HeadOf(r) == Some(head) && ChangedPaths(q) == {}
    ensures HeadOf(q) == Some(r.next) && IsolatedCommit(q, r.next, head, paths, AmendSessionWip)
  {
    hide ChangedPaths;
    forall p ensures Lookup(q.commits[r.next].tree, p) == if p in paths then Lookup(r.work, p)
                                                          else Lookup(HeadTree(r), p) {
      PutAllAt(HeadTree(r), paths, r.work, p);
    }
  }

  lemma StagesMeans(r: Repo, script: seq<Interference>, path: Path, message: string, head: CommitId)
    requires Stages(r, script, path, message, head)
    ensures Adds(r, script, path, head) && Drop(Drop(script, 3), 1) == []
  {
    hide ChangedPaths;
    hide Reached;
    hide Commits;
    hide AddPath;
  }

  predicate ValidArguments(mode: CommitMode, description: string, session: string) {
    mode == Create ==> ValidDescription(description) && ValidRequestId(session)
  }

  ghost predicate Covers(paths: seq<Path>, r: Repo) {
    forall p :: p in ChangedPaths(r) ==> p in paths
  }

  function CommandOf(mode: CommitMode, paths: seq<Path>, message: string): Command {
    match mode
    case Create => GitCommit(paths, message)
    case AmendSessionWip => GitAmend(paths)
  }

  lemma CreatedClean(r: Repo, paths: seq<Path>, message: string)
    requires WellFormed(r) && CreateCommit(r, paths, message).Some? && Covers(paths, r)
    ensures var q := CreateCommit(r, paths, message).value;
            ChangedPaths(q) == {} && HeadOf(q) == Some(r.next)
  {
    CommitOnlyCleans(r, paths, [HeadOf(r).value], message);
    CommitExtends(r, paths, [HeadOf(r).value], message);
  }

  lemma CommittedClean(r: Repo, q: Repo, paths: seq<Path>, mode: CommitMode, message: string)
    requires WellFormed(r) && Committed(r, q, paths, mode, message) && Covers(paths, r)
    ensures ChangedPaths(q) == {} && HeadOf(q) == Some(r.next)
  {
    hide ChangedPaths;
    var tip := r.commits[HeadOf(r).value];
    var parents := match mode case Create => [HeadOf(r).value] case AmendSessionWip => tip.parents;
    var text := match mode case Create => message case AmendSessionWip => tip.message;
    CommitOnlyCleans(r, paths, parents, text);
    CommitExtends(r, paths, parents, text);
  }

  /** What a commit of everything that had changed leaves. */
  lemma CommitLeaves(r: Repo, q: Repo, paths: seq<Path>, mode: CommitMode, message: string, head: CommitId)
    requires WellFormed(r) && Committed(r, q, paths, mode, message)
    ensures HeadOf(r) == Some(head) && Covers(paths, r) ==>
              ChangedPaths(q) == {} && HeadOf(q) == Some(r.next) && r.next != head
    ensures Covers(paths, r) ==> ChangedPaths(q) == {} && HeadOf(q) == Some(r.next)
    ensures mode == Create && Commits(r, paths, message, head) ==>
              && Some(q) == CreateCommit(r, paths, message)
              && ChangedPaths(q) == {} && HeadOf(q) == Some(r.next) && r.next != head
  {
    hide ChangedPaths;
    hide WellFormed;
    if mode == Create && Commits(r, paths, message, head) { CreatedClean(r, paths, message); }
    if Covers(paths, r) { CommittedClean(r, q, paths, mode, message); }
    if HeadOf(r) == Some(head) && Covers(paths, r) { CommittedIsolated(r, q, paths, mode, message, head); }
  }

  /** A commit leaves the worktree alone. */
  lemma CommitKeepsWork(r: Repo, q: Repo, paths: seq<Path>, mode: CommitMode, message: string)
    requires Committed(r, q, paths, mode, message)
    ensures q.work == r.work
  {
  }

  lemma CommittedExtends(r: Repo, q: Repo, paths: seq<Path>, mode: CommitMode, message: string)
    requires WellFormed(r)
    requires Some(q) == match mode case Create => CreateCommit(r, paths, message)
                                   case AmendSessionWip => AmendCommit(r, paths)
    ensures Extends(r, q) && Committed(r, q, paths, mode, message)
  {
    var tip := r.commits[HeadOf(r).value];
    CommitExtends(r, paths, match mode case Create => [HeadOf(r).value] case AmendSessionWip => tip.parents,
                  match mode case Create => message case AmendSessionWip => tip.message);
  }

  /** Undisturbed, a commit in `mode` on top of a file command goes through. */
  ghost predicate Ready(r: Repo, mode: CommitMode, description: string, session: string, head: CommitId, branch: string) {
    && ValidArguments(mode, description, session)
    && HeadOf(r) == Some(head) && head in r.commits && ChangedPaths(r) == {}
    && (mode == AmendSessionWip ==> BranchName(r) == branch && Unshared(r, head, branch))
  }

  lemma ReadyNext(r: Repo, mode: CommitMode, description: string, session: string, head: CommitId, branch: string)
    requires WellFormed(r)
    ensures Ready(r, mode, description, session, head, branch) ==> r.next != head
  {
    hide ChangedPaths;
  }

  /** Git sees the new content of a path in a clean workspace: it is tracked with another content, or it is
      untracked and not ignored. */
  predicate SeesChange(r: Repo, path: Path, content: string) {
    if path in r.index then r.index[path] != content else path !in r.ignored
  }

  /** The target is as it must be, and its content is new. */
  predicate Takes(work: Tree, path: Path, content: string, requireExists: Option<bool>, disk: Disk) {
    && disk.writable
    && if path in work then requireExists != Some(false) && disk.readable && work[path] != content
       else requireExists != Some(true) && !IsDirectory(work, path)
  }

  /** What a status shows of a repository that nobody disturbs. */
  lemma QuietStatus(r: Repo)
    ensures Played(r, [], 1) == Played(r, [], 2) == Played(r, [], 3) == Played(r, [], 4) == r
    ensures Shows(r, []) <==> HeadOf(r).Some?
  {
    assert Reached(r, Drop<Interference>([], 0)) == r;
    assert Played(r, [], 1) == r;
    assert Played(r, [], 2) == r;
    assert Played(r, [], 3) == r;
  }

  /** A write in a clean workspace changes its one path, or nothing that Git sees. */
  lemma WrittenChanges(r: Repo, path: Path, content: string)
    requires ChangedPaths(r) == {}
    ensures ChangedPaths(Write(r, path, content)) == if SeesChange(r, path, content) then {path} else {}
  {
    var w := Write(r, path, content);
    CleanMeans(r);
    assert HeadTree(w) == HeadTree(r);
    forall p ensures p in ChangedPaths(w) <==> p == path && SeesChange(r, path, content) {
      assert p in ChangedPaths(w) <==> p in HeadTree(w).Keys + w.index.Keys + w.work.Keys && IsChanged(w, p);
    }
  }

  /** A commit of paths that hold all changes, one of which HEAD does not have, goes through. */
  lemma CommitGoesThrough(r: Repo, q: Repo, paths: seq<Path>, changed: Path, mode: CommitMode, description: string,
                          session: string, head: CommitId, branch: string)
    requires WellFormed(r) && Ready(r, mode, description, session, head, branch) && SameTips(r, q)
    requires Covers(paths, q) && Tracked(q, paths) && changed in paths && Lookup(q.work, changed) != Lookup(HeadTree(r), changed)
    ensures mode == Create ==> Commits(q, paths, WipMessage(description, session), head)
    ensures mode == AmendSessionWip ==> Amends(q, [], paths, head, branch)
  {
    hide ChangedPaths;
    hide WipMessage;
    hide ValidArguments;
    hide Covers;
    hide Tracked;
    hide Played;
    hide Shows;
    QuietStatus(q);
    PutAllAt(HeadTree(q), paths, q.work, changed);
    SharedByPath(r, head, branch);
    assert SharedRefs(q, head, branch) == SharedRefs(r, head, branch);
  }

  lemma WriteGoesThrough(r: Repo, path: Path, content: string, mode: CommitMode, description: string, session: string,
                         head: CommitId, branch: string)
    requires WellFormed(r) && Ready(r, mode, description, session, head, branch) && SeesChange(r, path, content)
    ensures var wrote := Write(r, path, content);
            && Adds(wrote, [], path, head)
            && (mode == Create ==> Stages(wrote, [], path, WipMessage(description, session), head))
            && (mode == AmendSessionWip ==>
                  Amends(AddPath(Played(wrote, [], 4), path).value, Drop<Interference>([], 4), [path], head, branch))
  {
    hide ChangedPaths;
    hide WipMessage;
    hide ValidArguments;
    hide SharedRefs;
    hide Unshared;
    hide Amends;
    hide Commits;
    hide Played;
    hide Shows;
    var wrote := Write(r, path, content);
    QuietStatus(wrote);
    WrittenChanges(r, path, content);
    CleanMeans(r);
    var staged := AddPath(wrote, path).value;
    StagedChanges(wrote, path);
    CommitGoesThrough(r, staged, [path], path, mode, description, session, head, branch);
  }

  /** Everything that a write of new content needs. */
  lemma WriteWorks(r: Repo, path: Path, content: string, mode: CommitMode, description: string, session: string,
                   head: CommitId, branch: string)
    requires WellFormed(r) && Ready(r, mode, description, session, head, branch)
    ensures var wrote := Write(r, path, content);
            && HeadOf(wrote) == Some(head)
            && (!SeesChange(r, path, content) ==> ChangedPaths(wrote) == {})
            && (SeesChange(r, path, content) ==>
                  && Adds(wrote, [], path, head) && AddPath(Played(wrote, [], 4), path).value.next == r.next
                  && Played(AddPath(Played(wrote, [], 4), path).value, Drop<Interference>([], 4), 4).next == r.next
                  && (mode == Create ==> Stages(wrote, [], path, WipMessage(description, session), head))
                  && (mode == AmendSessionWip ==>
                        Amends(AddPath(Played(wrote, [], 4), path).value, Drop<Interference>([], 4), [path], head, branch)))
  {
    hide ChangedPaths;
    hide SharedRefs;
    hide Unshared;
    hide Amends;
    hide Stages;
    hide Played;
    hide AddPath;
    hide SeesChange;
    hide WipMessage;
    WrittenChanges(r, path, content);
    if SeesChange(r, path, content) { WriteGoesThrough(r, path, content, mode, description, session, head, branch); }
    StagedNext(r, path, content);
  }

  lemma StagedNext(r: Repo, path: Path, content: string)
    ensures var wrote := Write(r, path, content);
            HeadOf(wrote) == HeadOf(r)
            && (AddPath(Played(wrote, [], 4), path).Some? ==>
                  Played(AddPath(Played(wrote, [], 4), path).value, Drop<Interference>([], 4), 4).next == r.next
                  && AddPath(Played(wrote, [], 4), path).value.next == r.next)
  {
    QuietStatus(Write(r, path, content));
    if AddPath(Write(r, path, content), path).Some? { QuietStatus(AddPath(Write(r, path, content), path).value); }
  }

  lemma StagedChanges(r: Repo, path: Path)
    requires AddPath(r, path).Some? && ChangedPaths(r) == {path} && path in r.work
    ensures var q := AddPath(r, path).value;
            SameTips(r, q) && q.work == r.work && Covers([path], q) && Tracked(q, [path])
  {
    var q := AddPath(r, path).value;
    assert HeadTree(q) == HeadTree(r);
    forall p | p in ChangedPaths(q) ensures p in [path] {
      if p != path {
        assert IsChanged(r, p) <==> IsChanged(q, p);
        assert p in ChangedPaths(r) <==> p in ChangedPaths(q);
      }
    }
  }

  /** A file command that leaves changes in `paths` alone, one of which HEAD does not have, and the commit on
      top of it. */
  lemma CommandGoesThrough(r: Repo, q: Repo, paths: seq<Path>, changed: Path, mode: CommitMode, description: string,
                           session: string, head: CommitId, branch: string)
    requires WellFormed(r) && Ready(r, mode, description, session, head, branch) && SameTips(r, q)
    requires Covers(paths, q) && Tracked(q, paths) && changed in paths && Lookup(q.work, changed) != Lookup(HeadTree(r), changed)
    ensures mode == Create ==> Checks(q, [], paths, WipMessage(description, session), head)
    ensures mode == AmendSessionWip ==>
              Passes(q, [], paths, head) && Amends(Played(q, [], 3), Drop<Interference>([], 3), paths, head, branch)
    ensures Played(q, [], 3).next == r.next && Played(Played(q, [], 3), Drop<Interference>([], 3), 4).next == r.next
  {
    hide ChangedPaths;
    hide WipMessage;
    hide ValidArguments;
    hide Tracked;
    hide Played;
    hide Shows;
    hide Commits;
    hide Amends;
    hide SharedRefs;
    hide Unshared;
    QuietStatus(q);
    CommitGoesThrough(r, q, paths, changed, mode, description, session, head, branch);
  }

  /** A moved file leaves changes at its two paths alone. */
  lemma MoveChanges(r: Repo, source: Path, destination: Path)
    requires ChangedPaths(r) == {} && MovePath(r, source, destination).Some? && source != destination
    ensures var q, paths := MovePath(r, source, destination).value, [source, destination];
            && SameTips(r, q) && Covers(paths, q) && Tracked(q, paths) && source in paths
            && Lookup(q.work, source) != Lookup(HeadTree(r), source)
  {
    var q := MovePath(r, source, destination).value;
    CleanMeans(r);
    forall p ensures IsChanged(q, p) ==> p in [source, destination] {
      assert p !in ChangedPaths(r);
      assert p != source && p != destination ==> (IsChanged(q, p) <==> IsChanged(r, p));
    }
  }

  /** A removed file leaves a change at its path alone. */
  lemma RemovalChanges(r: Repo, path: Path)
    requires ChangedPaths(r) == {} && RemovePath(r, path).Some?
    ensures var q := RemovePath(r, path).value;
            && SameTips(r, q) && Covers([path], q) && Tracked(q, [path]) && path in [path]
            && Lookup(q.work, path) != Lookup(HeadTree(r), path)
  {
    var q := RemovePath(r, path).value;
    CleanMeans(r);
    forall p ensures IsChanged(q, p) ==> p in [path] {
      assert p !in ChangedPaths(r);
      assert p != path ==> (IsChanged(q, p) <==> IsChanged(r, p));
    }
  }

  /** Everything that an undisturbed move needs. */
  lemma MoveGoesThrough(r: Repo, source: Path, destination: Path, mode: CommitMode, description: string, session: string,
                        head: CommitId, branch: string)
    requires WellFormed(r) && Ready(r, mode, description, session, head, branch)
    requires MovePath(r, source, destination).Some? && source != destination
    ensures var none, paths, message := Drop<Interference>([], 3), [source, destination], WipMessage(description, session);
            var ran, rest := Reached(Played(r, [], 3), none), Drop(none, 1);
            && CleanOn(r, [], head) && FateOf(none) == Completes && Apply(GitMove(source, destination), ran).Some?
            && var q := Apply(GitMove(source, destination), ran).value;
            && (mode == Create ==> Checks(q, rest, paths, message, head))
            && (mode == AmendSessionWip ==>
                  Passes(q, rest, paths, head) && Amends(Played(q, rest, 3), Drop(rest, 3), paths, head, branch))
            && Played(q, rest, 3).next == r.next && Played(Played(q, rest, 3), Drop(rest, 3), 4).next == r.next
  {
    hide SharedRefs;
    hide Unshared;
    hide WipMessage;
    hide ValidArguments;
    hide Checks;
    hide Passes;
    hide Amends;
    hide Played;
    hide WellFormed;
    hide ChangedPaths;
    QuietStatus(r);
    FileCommands(r, source, destination);
    var q := MovePath(r, source, destination).value;
    MoveChanges(r, source, destination);
    CommandGoesThrough(r, q, [source, destination], source, mode, description, session, head, branch);
  }

  /** Everything that an undisturbed deletion needs. */
  lemma RemovalGoesThrough(r: Repo, path: Path, mode: CommitMode, description: string, session: string,
                        head: CommitId, branch: string)
    requires WellFormed(r) && Ready(r, mode, description, session, head, branch)
    requires RemovePath(r, path).Some?
    ensures var none, paths, message := Drop<Interference>([], 3), [path], WipMessage(description, session);
            var ran, rest := Reached(Played(r, [], 3), none), Drop(none, 1);
            && CleanOn(r, [], head) && FateOf(none) == Completes && Apply(GitRemove(path), ran).Some?
            && var q := Apply(GitRemove(path), ran).value;
            && (mode == Create ==> Checks(q, rest, paths, message, head))
            && (mode == AmendSessionWip ==>
                  Passes(q, rest, paths, head) && Amends(Played(q, rest, 3), Drop(rest, 3), paths, head, branch))
            && Played(q, rest, 3).next == r.next && Played(Played(q, rest, 3), Drop(rest, 3), 4).next == r.next
  {
    hide SharedRefs;
    hide Unshared;
    hide WipMessage;
    hide ValidArguments;
    hide Checks;
    hide Passes;
    hide Amends;
    hide Played;
    hide WellFormed;
    hide ChangedPaths;
    QuietStatus(r);
    FileCommands(r, path, path);
    var q := RemovePath(r, path).value;
    RemovalChanges(r, path);
    CommandGoesThrough(r, q, [path], path, mode, description, session, head, branch);
  }

  lemma TipFrom(r0: Repo, r: Repo, q: Repo, mode: CommitMode, message: string)
    ensures SameTips(r0, r) && OneNewTip(r, q, mode, message) ==> OneNewTip(r0, q, mode, message)
  {
  }

  /** A refusal that changed nothing keeps every promise. */
  lemma OutcomeRefused(before: Repo, script: seq<Interference>, e: seq<Effect>, after: Repo, code: ErrorCode,
                       paths: seq<Path>, mode: CommitMode, message: string, head: CommitId, branch: string, grace: nat)
    requires code != UnknownSideEffect && (script == [] ==> SameTips(before, after))
    ensures MutationOutcome(before, script, e, after, e, Err(code), paths, mode, message, head, branch, grace)
  {
  }

  /** What holds of the rest of a mutation holds of the whole, when the first part committed nothing. */
  lemma OutcomeFrom(r0: Repo, s0: seq<Interference>, e0: seq<Effect>, r1: Repo, s1: seq<Interference>, e1: seq<Effect>,
                    after: Repo, now: seq<Effect>, r: Result<CommitId, ErrorCode>, paths: seq<Path>, mode: CommitMode,
                    message: string, head: CommitId, branch: string, g0: nat, g1: nat)
    requires e0 <= e1 && NoCommit(e1, |e0|) && (r.Err? ==> r.error == UnknownSideEffect || e1 == e0)
    requires MutationOutcome(r1, s1, e1, after, now, r, paths, mode, message, head, branch, g1)
    requires s0 == [] ==> s1 == [] && SameTips(r0, r1)
    requires |s0| <= g0 ==> |s1| <= g1
    ensures MutationOutcome(r0, s0, e0, after, now, r, paths, mode, message, head, branch, g0)
  {
    hide OneNewTip;
    hide CommitEffect;
    hide IsolatedCommit;
    hide SameTips;
    assert forall i :: |e0| <= i < |e1| ==> now[i] == e1[i];
    if s0 == [] {
      TipFrom(r0, r1, after, mode, message);
      SameTipsFrom(r0, r1, after);
    }
  }

  lemma OutcomeIsolated(before: Repo, script: seq<Interference>, was: seq<Effect>, after: Repo, now: seq<Effect>,
                        r: Result<CommitId, ErrorCode>, paths: seq<Path>, mode: CommitMode, message: string,
                        head: CommitId, branch: string, grace: nat)
    requires MutationOutcome(before, script, was, after, now, r, paths, mode, message, head, branch, grace)
    ensures r.Ok? && r.value != head && |script| <= grace ==> IsolatedCommit(after, r.value, head, paths, mode)
  {
    hide IsolatedCommit;
    hide OnlyCommits;
    hide OneNewTip;
  }

  lemma SameTipsSelf(r: Repo)
    ensures SameTips(r, r)
  {
  }

  lemma SameTipsFrom(r0: Repo, r1: Repo, q: Repo)
    requires SameTips(r0, r1)
    ensures SameTips(r1, q) ==> SameTips(r0, q)
    ensures r0.next == r1.next
  {
  }

  /** Moving and removing files leaves commits, refs and HEAD alone. */
  lemma FileCommands(r: Repo, p: Path, destination: Path)
    ensures Apply(GitMove(p, destination), r) == MovePath(r, p, destination)
    ensures MovePath(r, p, destination).Some? ==>
              SameTips(r, MovePath(r, p, destination).value)
              && Lookup(MovePath(r, p, destination).value.work, p) == if p == destination then Lookup(r.work, p) else None
    ensures Apply(GitRemove(p), r) == RemovePath(r, p)
    ensures RemovePath(r, p).Some? ==>
              SameTips(r, RemovePath(r, p).value) && p !in RemovePath(r, p).value.work
  {
  }

  lemma DeletedTree(q: Repo, tip: CommitId, head: CommitId, path: Path, mode: CommitMode)
    requires IsolatedCommit(q, tip, head, [path], mode) && Lookup(TreeOf(q, tip), path) == None
    ensures TreeOf(q, tip) == TreeOf(q, head) - {path}
  {
    TreesEqual(TreeOf(q, tip), TreeOf(q, head) - {path});
  }

  lemma MovedTree(r: Repo, q: Repo, tip: CommitId, head: CommitId, source: Path, destination: Path, mode: CommitMode)
    requires WellFormed(r) && Extends(r, q) && HeadOf(r) == Some(head) && ChangedPaths(r) == {}
    requires MovePath(r, source, destination).Some?
    requires IsolatedCommit(q, tip, head, [source, destination], mode)
    requires forall p :: p in [source, destination] ==>
               Lookup(TreeOf(q, tip), p) == Lookup(MovePath(r, source, destination).value.work, p)
    ensures var before, after := TreeOf(q, head), TreeOf(q, tip);
            source in before && destination !in before && after == (before - {source})[destination := before[source]]
  {
    CleanMeans(r);
    ExtendsMeans(r, q);
    var before, after := TreeOf(q, head), TreeOf(q, tip);
    assert before == HeadTree(r);
    assert source in [source, destination] && destination in [source, destination];
    TreesEqual(after, (before - {source})[destination := before[source]]);
  }

  /** A commit of everything that had changed, made on `head`. */
  lemma CommittedIsolated(r: Repo, q: Repo, paths: seq<Path>, mode: CommitMode, message: string, head: CommitId)
    requires WellFormed(r) && Committed(r, q, paths, mode, message)
    requires HeadOf(r) == Some(head) && Covers(paths, r)
    ensures HeadOf(q) == Some(r.next) && r.next in q.commits
    ensures IsolatedCommit(q, r.next, head, paths, mode) && OneNewTip(r, q, mode, message)
    ensures forall p :: p in paths ==> Lookup(q.commits[r.next].tree, p) == Lookup(r.work, p)
  {
    var parents := match mode case Create => [head] case AmendSessionWip => r.commits[head].parents;
    CommitOnlyCleans(r, paths, parents, match mode case Create => message
                                          case AmendSessionWip => r.commits[head].message);
    forall p ensures Lookup(q.commits[r.next].tree, p) == if p in paths then Lookup(r.work, p)
                                                          else Lookup(HeadTree(r), p) {
      PutAllAt(HeadTree(r), paths, r.work, p);
    }
  }

  /** A commit that ran where its recheck left the repository is safe. */
  lemma CommitIsSafe(e: Effect, paths: seq<Path>, mode: CommitMode, message: string, head: CommitId, branch: string)
    requires e.command == CommandOf(mode, paths, message) && Committed(e.before, e.after, paths, mode, message)
    requires WellFormed(e.before)
    requires mode == AmendSessionWip ==>
      && |e.recheck| == 5 && BranchName(e.recheck[0]) == branch && HeadOf(e.recheck[1]) == Some(head)
      && SharedRefs(e.recheck[3], head, branch) == {}
    ensures CommitEffect(e, paths, mode, message, head, branch)
  {
    hide Unshared;
    hide SharedRefs;
    if mode == AmendSessionWip && Still(e.recheck, e.before) {
      assert e.recheck[0] == e.before && e.recheck[1] == e.before && e.recheck[3] == e.before;
      SharedByPath(e.before, head, branch);
    }
  }

  class GitGuard {
    const work: Workspace

    constructor (work: Workspace)
      ensures this.work == work
    {
      this.work := work;
    }

    /** Status, then HEAD's files: four commands, four possibly different repositories. */
    method Snapshot() returns (r: Result<StoreModel.Snapshot, ErrorCode>)
      requires work.Valid()
      modifies work
      ensures work.Valid() && Extends(old(work.repo), work.repo)
      ensures old(work.trace) <= work.trace
      ensures work.effects == old(work.effects) && old(work.seen) <= work.seen
      ensures r.Err? ==> r.error == BackendUnavailable
      ensures var n := |old(work.seen)|;
              r.Ok? ==>
                && |work.seen| == n + 4 && work.script == Drop(old(work.script), 4) && work.repo == work.seen[n + 3]
                && r.value.branch == BranchName(work.seen[n])
                && HeadOf(work.seen[n + 1]) == Some(r.value.head)
                && r.value.changed == ChangedPaths(work.seen[n + 2]) && r.value.dirty == (r.value.changed != {})
                && r.value.files == HeadTree(work.seen[n + 3])
      ensures r.Ok? <==> Snaps(old(work.repo), old(work.script))
      ensures r.Ok? ==>
                && work.repo == Played(old(work.repo), old(work.script), 4)
                && r.value.branch == BranchName(Played(old(work.repo), old(work.script), 1))
                && Some(r.value.head) == HeadOf(Played(old(work.repo), old(work.script), 2))
      ensures r.Ok? && |old(work.script)| <= 3 ==> work.seen[|old(work.seen)| + 2] == work.repo
      ensures r.Ok? && |old(work.script)| <= 2 ==> work.seen[|old(work.seen)| + 1] == work.repo
      ensures old(work.script) == [] ==>
                && work.repo == old(work.repo) && work.script == [] && (r.Ok? <==> HeadOf(work.repo).Some?)
                && (r.Ok? ==> r.value == SnapshotOf(work.repo))
    {
      hide Extends;
      hide Accounted;
      hide WellFormed;
      hide ChangedPaths;
      hide Shows;
      ghost var r0 := work.repo;
      var status := work.Status();
      ghost var r1 := work.repo;
      if status.Err? { return Err(status.error); }
      var fate := work.Await();
      ExtendsTransitive(r0, r1, work.repo);
      if fate != Completes || HeadOf(work.repo).None? { return Err(BackendUnavailable); }
      return Ok(StoreModel.Snapshot.Snapshot(
        status.value.branch, status.value.head, status.value.changed != {}, status.value.changed,
        HeadTree(work.repo), false));
    }

    /** `update-ref`, creating or moving a checkpoint ref. */
    method SetCheckpointRef(c: Id, head: CommitId) returns (ok: bool)
      requires work.Valid()
      modifies work
      ensures work.Valid() && Extends(old(work.repo), work.repo)
      ensures old(work.trace) <= work.trace
      ensures |work.seen| == |old(work.seen)| + 1 && work.script == Drop(old(work.script), 1)
      ensures OnlyRefs(old(work.effects), work.effects, c)
      ensures ok ==> head in work.repo.commits && Lookup(work.repo.refs, CheckpointRef(c)) == Some(head)
      ensures old(work.script) == [] ==>
                && (ok <==> head in old(work.repo).commits)
                && work.repo == if ok then old(work.repo).(refs := old(work.repo).refs[CheckpointRef(c) := head])
                                else old(work.repo)
    {
      hide Extends;
      hide Accounted;
      ghost var r0 := work.repo;
      var fate := work.Await();
      ghost var r1 := work.repo;
      ok := work.Perform(GitSetRef(c, head), fate, false, []);
      ExtendsTransitive(r0, r1, work.repo);
    }

    method DeleteCheckpointRef(c: Id)
      requires work.Valid()
      modifies work
      ensures work.Valid() && Extends(old(work.repo), work.repo)
      ensures old(work.trace) <= work.trace
      ensures OnlyRefs(old(work.effects), work.effects, c) && work.script == Drop(old(work.script), 1)
      ensures old(work.script) == [] ==> TipsKept(old(work.repo), work.repo, c)
    {
      hide Extends;
      hide Accounted;
      ghost var r0 := work.repo;
      var fate := work.Await();
      ghost var r1 := work.repo;
      var _ := work.Perform(GitDropRef(c), fate, false, []);
      ExtendsTransitive(r0, r1, work.repo);
    }

    /** The commit a checkpoint ref names. */
    method ResolveCheckpointRef(c: Id) returns (r: Option<CommitId>)
      requires work.Valid()
      modifies work
      ensures work.Valid() && Extends(old(work.repo), work.repo) && work.effects == old(work.effects)
      ensures old(work.trace) <= work.trace
      ensures work.seen == old(work.seen) + [work.repo] && work.script == Drop(old(work.script), 1)
      ensures r.Some? ==> r == Lookup(work.repo.refs, CheckpointRef(c)) && r.value in work.repo.commits
      ensures old(work.script) == [] ==> work.repo == old(work.repo) && r == Lookup(work.repo.refs, CheckpointRef(c))
    {
      hide Extends;
      hide Accounted;
      var fate := work.Await();
      return if fate != Completes then None else Lookup(work.repo.refs, CheckpointRef(c));
    }

    /** The names that differ between a checkpoint ref and a fixed commit; sensitive names are refused. */
    method DiffNamesBetween(c: Id, head: CommitId) returns (r: Result<set<Path>, ErrorCode>)
      requires work.Valid()
      modifies work
      ensures work.Valid() && Extends(old(work.repo), work.repo) && work.effects == old(work.effects)
      ensures old(work.trace) <= work.trace
      ensures r.Err? ==> r.error == BackendUnavailable || r.error == SensitivePath
      ensures work.seen == old(work.seen) + [work.repo] && work.script == Drop(old(work.script), 1)
      ensures work.repo == Reached(old(work.repo), old(work.script))
      ensures r.Ok? <==> Names(old(work.repo), old(work.script), c, head)
      ensures r.Ok? ==>
                && CheckpointRef(c) in work.repo.refs && head in work.repo.commits
                && r.value == ChangedBetween(RefTree(work.repo, c), TreeOf(work.repo, head))
                && (forall p :: p in r.value ==> !IsSensitive(p))
                && (forall p :: p in r.value <==>
                      Lookup(TreeOf(work.repo, work.repo.refs[CheckpointRef(c)]), p) != Lookup(TreeOf(work.repo, head), p))
      ensures old(work.script) == [] ==>
                && work.repo == old(work.repo)
                && (r.Ok? <==> CheckpointRef(c) in work.repo.refs && head in work.repo.commits
                               && NoneSensitive(ChangedBetween(RefTree(work.repo, c),
                                                               TreeOf(work.repo, head))))
    {
      hide Extends;
      hide Accounted;
      hide IsSensitive;
      var fate := work.Await();
      if fate != Completes || CheckpointRef(c) !in work.repo.refs || head !in work.repo.commits {
        return Err(BackendUnavailable);
      }
      var names := ChangedBetween(RefTree(work.repo, c), TreeOf(work.repo, head));
      if !NoneSensitive(names) { return Err(SensitivePath); }
      return Ok(names);
    }

    /** The diff between a checkpoint ref and a fixed commit, by its hash. */
    method DiffBetween(c: Id, head: CommitId) returns (r: Result<StoreModel.Digest, ErrorCode>)
      requires work.Valid()
      modifies work
      ensures work.Valid() && Extends(old(work.repo), work.repo) && work.effects == old(work.effects)
      ensures old(work.trace) <= work.trace
      ensures r.Err? ==> r.error == BackendUnavailable || r.error == SensitivePath
      ensures old(work.seen) <= work.seen
      ensures r.Ok? <==> Diffs(old(work.repo), old(work.script), c, head)
      ensures r.Ok? ==> work.repo == Reached(Reached(old(work.repo), old(work.script)), Drop(old(work.script), 1))
      ensures r.Ok? ==>
                && |work.seen| == |old(work.seen)| + 2 && work.script == Drop(old(work.script), 2)
                && work.repo == work.seen[|old(work.seen)| + 1]
                && CheckpointRef(c) in work.repo.refs && head in work.repo.commits
                && r.value == StoreModel.Digest.Digest(RefTree(work.repo, c),
                                                       TreeOf(work.repo, head))
      ensures old(work.script) == [] ==>
                && work.repo == old(work.repo) && work.script == []
                && (r.Ok? <==> CheckpointRef(c) in work.repo.refs && head in work.repo.commits
                               && NoneSensitive(ChangedBetween(RefTree(work.repo, c),
                                                               TreeOf(work.repo, head))))
    {
      hide Extends;
      hide Accounted;
      hide ChangedBetween;
      hide NoneSensitive;
      ghost var r0 := work.repo;
      var names := DiffNamesBetween(c, head);
      ghost var r1 := work.repo;
      if names.Err? { return Err(names.error); }
      var fate := work.Await();
      ExtendsTransitive(r0, r1, work.repo);
      if fate != Completes || CheckpointRef(c) !in work.repo.refs || head !in work.repo.commits {
        return Err(BackendUnavailable);
      }
      return Ok(StoreModel.Digest.Digest(RefTree(work.repo, c), TreeOf(work.repo, head)));
    }

    /** One commit command, which ran in the state `ran`. */
    method Commit(paths: seq<Path>, mode: CommitMode, message: string, ghost recheck: seq<Repo>)
      returns (ok: bool, ghost ran: Repo)
      requires work.Valid() && Recent(recheck, work.seen)
      modifies work
      ensures work.Valid() && Extends(old(work.repo), work.repo)
      ensures old(work.trace) <= work.trace
      ensures work.seen == old(work.seen) + [ran] && work.script == Drop(old(work.script), 1)
      ensures WellFormed(ran)
      ensures old(work.script) == [] ==> ran == old(work.repo) && (ok <==> work.effects != old(work.effects))
      ensures old(work.script) == [] && mode == Create && CreateCommit(old(work.repo), paths, message).Some? ==>
                ok && Some(work.repo) == CreateCommit(old(work.repo), paths, message)
      ensures old(work.script) == [] && mode == AmendSessionWip && AmendCommit(old(work.repo), paths).Some? ==>
                ok && Some(work.repo) == AmendCommit(old(work.repo), paths)
      ensures if work.effects == old(work.effects) then !ok && work.repo == ran
              else work.effects == old(work.effects) + [Effect(CommandOf(mode, paths, message), ran, work.repo, recheck + [ran])]
                   && Committed(ran, work.repo, paths, mode, message)
    {
      hide Extends;
      hide Accounted;
      hide WellFormed;
      ghost var r0 := work.repo;
      var fate := work.Await();
      ran := work.repo;
      ExtendsMeans(r0, ran);
      var command := CommandOf(mode, paths, message);
      if Apply(command, ran).Some? { CommittedExtends(ran, Apply(command, ran).value, paths, mode, message); }
      ok := work.Perform(command, fate, false, recheck + [ran]);
      ExtendsTransitive(r0, ran, work.repo);
    }

    /** The check after a commit: the workspace is clean, and HEAD has moved. */
    method ConfirmTip(head: CommitId) returns (r: Result<CommitId, ErrorCode>)
      requires work.Valid()
      modifies work`repo, work`script, work`seen, work`trace
      ensures work.Valid() && Extends(old(work.repo), work.repo)
      ensures old(work.trace) <= work.trace
      ensures old(work.script) == [] ==> work.script == []
      ensures r.Ok? ==> r.value != head
      ensures old(work.script) == [] ==>
                && work.repo == old(work.repo)
                && (r.Ok? <==> HeadOf(work.repo).Some? && HeadOf(work.repo) != Some(head) && ChangedPaths(work.repo) == {})
                && (r.Ok? ==> HeadOf(work.repo) == Some(r.value))
    {
      hide Extends;
      hide Accounted;
      hide WellFormed;
      hide ChangedPaths;
      hide Shows;
      hide States;
      hide Played;
      var final := work.Status();
      if final.Err? { return Err(final.error); }
      if final.value.changed != {} || final.value.head == head { return Err(Conflict); }
      return Ok(final.value.head);
    }

    /** The recheck of an amend, the commit, and the check of its result. */
    method CommitAndConfirm(paths: seq<Path>, mode: CommitMode, message: string, head: CommitId, branch: string)
      returns (r: Result<CommitId, ErrorCode>)
      requires work.Valid()
      modifies work
      ensures work.Valid() && Extends(old(work.repo), work.repo)
      ensures old(work.trace) <= work.trace
      ensures old(work.script) == [] ==> work.script == []
      ensures work.effects == old(work.effects)
              || exists e :: work.effects == old(work.effects) + [e] && CommitEffect(e, paths, mode, message, head, branch)
      ensures r.Ok? ==> r.value != head && work.effects != old(work.effects)
      ensures old(work.script) == [] ==>
                if work.effects == old(work.effects) then work.repo == old(work.repo)
                else Committed(old(work.repo), work.repo, paths, mode, message)
      ensures old(work.script) == [] && r.Ok? ==>
                && HeadOf(work.repo) == Some(r.value) && ChangedPaths(work.repo) == {}
      ensures old(work.script) == [] && HeadOf(old(work.repo)) == Some(head) && Covers(paths, old(work.repo)) ==>
                (r.Ok? <==> work.effects != old(work.effects))
      ensures old(work.script) == [] && mode == Create && Commits(old(work.repo), paths, message, head) ==>
                r == Ok(old(work.repo).next) && Some(work.repo) == CreateCommit(old(work.repo), paths, message)
      ensures mode == AmendSessionWip && |old(work.script)| <= 2 && r.Ok? ==>
                IsolatedCommit(work.repo, r.value, head, paths, mode)
      ensures mode == AmendSessionWip && Amends(old(work.repo), old(work.script), paths, head, branch) ==>
                var found := Played(old(work.repo), old(work.script), 4);
                r == Ok(found.next) && Some(work.repo) == AmendCommit(found, paths)
    {
      hide Extends;
      hide Accounted;
      hide WellFormed;
      hide ChangedPaths;
      hide SharedRefs;
      hide Unshared;
      hide Committed;
      hide CommitEffect;
      hide IsolatedCommit;
      hide CreateCommit;
      hide AmendCommit;
      hide Rechecks;
      hide Recent;
      hide Covers;
      hide OneNewTip;
      hide Reached;
      hide FateOf;
      hide Shows;
      hide Unshared;
      hide Played;
      hide States;
      ghost var r0 := work.repo;
      ghost var n := |work.seen|;
      ExtendsSelf(r0);
      if mode == AmendSessionWip {
        var error := work.VerifyAmendTarget(head, branch);
        if error.Some? { return Err(error.value); }
      }
      ghost var r1 := work.repo;
      RecentTail(work.seen, n);
      var ok, ran := Commit(paths, mode, message, work.seen[n..]);
      ghost var r2 := work.repo;
      ExtendsTransitive(r0, r1, r2);
      if work.effects != old(work.effects) {
        CommitIsSafe(work.effects[|old(work.effects)|], paths, mode, message, head, branch);
        CommitLeaves(ran, r2, paths, mode, message, head);
      }
      if !ok { return Err(BackendUnavailable); }
      r := ConfirmTip(head);
      ExtendsTransitive(r0, r2, work.repo);
      if r.Err? { return; }
      if mode == AmendSessionWip && |old(work.script)| <= 2 { AmendIsolated(ran, r2, paths, message, head); }
    }

    /** Replaces one file and commits only that path. */
    method CommitFileBytes(path: Path, content: string, head: CommitId, description: string,
                           requireExists: Option<bool>, mode: CommitMode, session: string, branch: string, disk: Disk)
      returns (r: Result<CommitId, ErrorCode>)
      requires work.Valid()
      modifies work
      ensures work.Valid() && Extends(old(work.repo), work.repo)
      ensures old(work.trace) <= work.trace
      ensures r.Err? && r.error != UnknownSideEffect ==> OthersOnly(old(work.trace), work.trace)
      ensures r.Ok? && r.value != head && |old(work.script)| <= (if mode == Create then 5 else 9) ==>
                IsolatedCommit(work.repo, r.value, head, [path], mode)
      ensures old(work.script) == [] ==> work.script == []
      ensures MutationOutcome(old(work.repo), old(work.script), old(work.effects), work.repo, work.effects, r,
                              [path], mode, WipMessage(description, session), head, branch, Grace(mode, 5))
      ensures r.Ok? && r.value != head && |old(work.script)| <= 3 ==>
                r.value in work.repo.commits && Lookup(work.repo.commits[r.value].tree, path) == Some(content)
      ensures var found, rest := Played(old(work.repo), old(work.script), 3), Drop(old(work.script), 3);
              var wrote, message := Write(found, path, content), WipMessage(description, session);
              && ValidArguments(mode, description, session) && mode == Create
              && CleanOn(old(work.repo), old(work.script), head) && Takes(found.work, path, content, requireExists, disk)
              && Stages(wrote, rest, path, message, head) ==>
                var staged := AddPath(Played(wrote, rest, 4), path).value;
                r == Ok(staged.next) && Some(work.repo) == CreateCommit(staged, [path], message)
      ensures var found, rest := Played(old(work.repo), old(work.script), 3), Drop(old(work.script), 3);
              var wrote := Write(found, path, content);
              && mode == AmendSessionWip && CleanOn(old(work.repo), old(work.script), head)
              && Takes(found.work, path, content, requireExists, disk)
              && Adds(wrote, rest, path, head)
              && Amends(AddPath(Played(wrote, rest, 4), path).value, Drop(rest, 4), [path], head, branch) ==>
                var amended := Played(AddPath(Played(wrote, rest, 4), path).value, Drop(rest, 4), 4);
                r == Ok(amended.next) && Some(work.repo) == AmendCommit(amended, [path])
      ensures !ValidArguments(mode, description, session) ==> r == Err(InvalidRequest)
      ensures var was := old(work.repo);
              && old(work.script) == [] && Ready(was, mode, description, session, head, branch)
              && requireExists == Some(path in was.work) && (path in was.work || !IsDirectory(was.work, path)) ==>
                r == if path in was.work && !disk.readable then Err(BackendUnavailable)
                     else if path in was.work && was.work[path] == content then Ok(head)
                     else if !disk.writable then Err(UnknownSideEffect)
                     else if SeesChange(was, path, content) then Ok(was.next) else Ok(head)
      ensures old(work.script) == [] && r.Ok? ==> work.repo.work == old(work.repo).work[path := content]
    {
      hide Extends;
      hide Accounted;
      hide WellFormed;
      hide ChangedPaths;
      hide Stages;
      hide Adds;
      hide Amends;
      hide AmendCommit;
      hide CreateCommit;
      hide AddPath;
      ghost var r0 := work.repo;
      ExtendsSelf(r0);
      if !ValidArguments(mode, description, session) { return Err(InvalidRequest); }
      QuietStatus(r0);
      var error := RequireClean(head);
      if error.Some? { return Err(error.value); }
      ghost var r1 := work.repo;
      r := WriteTarget(path, content, head, description, requireExists, mode, session, branch, disk);
      ExtendsTransitive(r0, r1, work.repo);
    }

    /** The rest of `CommitFileBytes`, from the checks of the target on. */
    method WriteTarget(path: Path, content: string, head: CommitId, description: string,
                       requireExists: Option<bool>, mode: CommitMode, session: string, branch: string, disk: Disk)
      returns (r: Result<CommitId, ErrorCode>)
      requires work.Valid()
      modifies work
      ensures work.Valid() && Extends(old(work.repo), work.repo)
      ensures old(work.trace) <= work.trace
      ensures r.Err? && r.error != UnknownSideEffect ==> work.trace == old(work.trace)
      ensures old(work.script) == [] ==> work.script == []
      ensures MutationOutcome(old(work.repo), old(work.script), old(work.effects), work.repo, work.effects, r,
                              [path], mode, WipMessage(description, session), head, branch, if mode == Create then 2 else 6)
      ensures r.Ok? && r.value != head && old(work.script) == [] ==>
                r.value in work.repo.commits && Lookup(work.repo.commits[r.value].tree, path) == Some(content)
      ensures var wrote, message := Write(old(work.repo), path, content), WipMessage(description, session);
              && mode == Create && Takes(old(work.repo).work, path, content, requireExists, disk)
              && Stages(wrote, old(work.script), path, message, head) ==>
                var staged := AddPath(Played(wrote, old(work.script), 4), path).value;
                r == Ok(staged.next) && Some(work.repo) == CreateCommit(staged, [path], message)
      ensures var wrote, rest := Write(old(work.repo), path, content), old(work.script);
              && mode == AmendSessionWip && Takes(old(work.repo).work, path, content, requireExists, disk)
              && Adds(wrote, rest, path, head)
              && Amends(AddPath(Played(wrote, rest, 4), path).value, Drop(rest, 4), [path], head, branch) ==>
                var amended := Played(AddPath(Played(wrote, rest, 4), path).value, Drop(rest, 4), 4);
                r == Ok(amended.next) && Some(work.repo) == AmendCommit(amended, [path])
      ensures var was := old(work.repo);
              && old(work.script) == [] && Ready(was, mode, description, session, head, branch)
              && requireExists == Some(path in was.work) && (path in was.work || !IsDirectory(was.work, path)) ==>
                r == if path in was.work && !disk.readable then Err(BackendUnavailable)
                     else if path in was.work && was.work[path] == content then Ok(head)
                     else if !disk.writable then Err(UnknownSideEffect)
                     else if SeesChange(was, path, content) then Ok(was.next) else Ok(head)
      ensures old(work.script) == [] && r.Ok? ==> work.repo.work == old(work.repo).work[path := content]
    {
      hide Extends;
      hide Accounted;
      hide WellFormed;
      hide ChangedPaths;
      hide Stages;
      hide Adds;
      hide Amends;
      hide AmendCommit;
      hide CreateCommit;
      hide AddPath;
      hide Ready;
      hide Write;
      hide OnlyCommits;
      hide OneNewTip;
      hide IsolatedCommit;
      hide WipMessage;
      hide Played;
      ghost var r0 := work.repo;
      ExtendsSelf(r0);
      var found := path in work.repo.work;
      var occupied := found || IsDirectory(work.repo.work, path);
      SameTipsSelf(r0);
      forall code | code != UnknownSideEffect
        ensures MutationOutcome(r0, work.script, work.effects, r0, work.effects, Err(code), [path], mode,
                                WipMessage(description, session), head, branch, if mode == Create then 2 else 6)
      {
        OutcomeRefused(r0, work.script, work.effects, r0, code, [path], mode, WipMessage(description, session), head,
                       branch, if mode == Create then 2 else 6);
      }
      if requireExists == Some(true) && !found { return Err(FileNotFound); }
      if requireExists == Some(false) && occupied { return Err(Conflict); }
      if occupied && !found { return Err(Conflict); }
      if found {
        if !disk.readable { return Err(BackendUnavailable); }
        if work.repo.work[path] == content { return Ok(head); }
      }
      if Ready(r0, mode, description, session, head, branch) { WriteWorks(r0, path, content, mode, description, session, head, branch); }
      r := WriteAndCommit(path, content, head, mode, WipMessage(description, session), branch, disk);
    }

    /** The rest of `CommitFileBytes`, from the write on: every failure is unknown. */
    method WriteAndCommit(path: Path, content: string, head: CommitId, mode: CommitMode, message: string,
                          branch: string, disk: Disk)
      returns (r: Result<CommitId, ErrorCode>)
      requires work.Valid()
      modifies work
      ensures work.Valid() && Extends(old(work.repo), work.repo)
      ensures old(work.trace) <= work.trace
      ensures old(work.script) == [] ==> work.script == []
      ensures r.Err? ==> r.error == UnknownSideEffect
      ensures MutationOutcome(old(work.repo), old(work.script), old(work.effects), work.repo, work.effects, r,
                              [path], mode, message, head, branch, if mode == Create then 2 else 6)
      ensures r.Ok? && r.value != head && old(work.script) == [] ==>
                r.value in work.repo.commits && Lookup(work.repo.commits[r.value].tree, path) == Some(content)
      ensures var wrote := Write(old(work.repo), path, content);
              mode == Create && disk.writable && Stages(wrote, old(work.script), path, message, head) ==>
                var staged := AddPath(Played(wrote, old(work.script), 4), path).value;
                r == Ok(staged.next) && Some(work.repo) == CreateCommit(staged, [path], message)
      ensures var wrote, rest := Write(old(work.repo), path, content), old(work.script);
              && mode == AmendSessionWip && disk.writable && Adds(wrote, rest, path, head)
              && Amends(AddPath(Played(wrote, rest, 4), path).value, Drop(rest, 4), [path], head, branch) ==>
                var amended := Played(AddPath(Played(wrote, rest, 4), path).value, Drop(rest, 4), 4);
                r == Ok(amended.next) && Some(work.repo) == AmendCommit(amended, [path])
      ensures !disk.writable ==> r == Err(UnknownSideEffect)
      ensures var wrote := Write(old(work.repo), path, content);
              disk.writable && old(work.script) == [] && HeadOf(wrote) == Some(head) && ChangedPaths(wrote) == {} ==>
                r == Ok(head)
      ensures old(work.script) == [] && disk.writable ==> work.repo.work == old(work.repo).work[path := content]
    {
      hide Extends;
      hide Accounted;
      hide WellFormed;
      hide ChangedPaths;
      hide OneNewTip;
      hide CommitEffect;
      hide IsolatedCommit;
      hide Amends;
      hide Adds;
      hide AmendCommit;
      hide Commits;
      hide Shows;
      hide Played;
      ghost var r0 := work.repo;
      ExtendsSelf(r0);
      if !disk.writable { return Err(UnknownSideEffect); }
      var staged := WriteAndStage(path, content, head, message);
      ghost var r1 := work.repo;
      if staged.Err? { return Err(UnknownSideEffect); }
      if !staged.value { return Ok(head); }
      r := Conclude([path], mode, message, head, branch);
      ExtendsTransitive(r0, r1, work.repo);
      TipFrom(r0, r1, work.repo, mode, message);
    }

    /** The write, the check that nothing else changed, and `git add`; false when Git sees no change. */
    method WriteAndStage(path: Path, content: string, head: CommitId, ghost message: string)
      returns (r: Result<bool, ErrorCode>)
      requires work.Valid()
      modifies work
      ensures work.Valid() && Extends(old(work.repo), work.repo)
      ensures old(work.trace) <= work.trace
      ensures old(work.script) == [] ==> work.script == []
      ensures NoCommitSince(old(work.effects), work.effects)
      ensures |old(work.script)| <= 2 && r == Ok(true) ==>
                work.script == [] && HeadOf(work.repo) == Some(head) && Covers([path], work.repo)
      ensures old(work.script) == [] ==> SameTips(old(work.repo), work.repo)
      ensures old(work.script) == [] && r == Ok(true) ==> Lookup(work.repo.work, path) == Some(content)
      ensures r == Ok(true) ==> work.script == Drop(old(work.script), 4)
      ensures var wrote := Write(old(work.repo), path, content);
              old(work.script) == [] && HeadOf(wrote) == Some(head) && ChangedPaths(wrote) == {} ==> r == Ok(false)
      ensures old(work.script) == [] ==> work.repo.work == old(work.repo).work[path := content]
      ensures var wrote := Write(old(work.repo), path, content);
              Adds(wrote, old(work.script), path, head) ==>
                r == Ok(true) && Some(work.repo) == AddPath(Played(wrote, old(work.script), 4), path)
      ensures var wrote := Write(old(work.repo), path, content);
              Stages(wrote, old(work.script), path, message, head) ==>
                && r == Ok(true) && work.script == []
                && work.repo == AddPath(Played(wrote, old(work.script), 4), path).value
    {
      hide Extends;
      hide Accounted;
      hide WellFormed;
      hide ChangedPaths;
      hide Stages;
      hide Shows;
      hide Played;
      hide AddPath;
      hide Reached;
      ghost var r0 := work.repo;
      var _ := work.Perform(GitWrite(path, content), Completes, true, []);
      ghost var r1 := work.repo;
      FourthAwait(r1, work.script);
      if Stages(r1, work.script, path, message, head) { StagesMeans(r1, work.script, path, message, head); }
      var after := work.Status();
      ghost var r2 := work.repo;
      ExtendsTransitive(r0, r1, r2);
      if after.Err? { return Err(after.error); }
      if after.value.head != head || after.value.changed - {path} != {} { return Err(Conflict); }
      if after.value.changed == {} { return Ok(false); }
      if path !in after.value.changed { return Err(Conflict); }
      assert after.value.changed <= {path};
      var added := Add(path);
      ExtendsTransitive(r0, r2, work.repo);
      return if added then Ok(true) else Err(BackendUnavailable);
    }

    method Add(path: Path) returns (ok: bool)
      requires work.Valid()
      modifies work
      ensures work.Valid() && Extends(old(work.repo), work.repo)
      ensures old(work.trace) <= work.trace
      ensures work.script == Drop(old(work.script), 1)
      ensures NoCommitSince(old(work.effects), work.effects)
      ensures var added := AddPath(Reached(old(work.repo), old(work.script)), path);
              added.Some? && FateOf(old(work.script)) == Completes ==> ok && work.repo == added.value
      ensures old(work.script) == [] ==>
                SameTips(old(work.repo), work.repo) && work.repo.work == old(work.repo).work
                && (forall p :: p in ChangedPaths(work.repo) ==> p == path || p in ChangedPaths(old(work.repo)))
    {
      hide Extends;
      hide Accounted;
      hide WellFormed;
      ghost var r0 := work.repo;
      ExtendsSelf(r0);
      var fate := work.Await();
      ghost var r1 := work.repo;
      ok := work.Perform(GitAdd(path), fate, false, []);
      ExtendsTransitive(r0, r1, work.repo);
    }

    /** The commit, its check, and the mapping of every error to unknown. */
    method Conclude(paths: seq<Path>, mode: CommitMode, message: string, head: CommitId, branch: string)
      returns (r: Result<CommitId, ErrorCode>)
      requires work.Valid()
      modifies work
      ensures work.Valid() && Extends(old(work.repo), work.repo)
      ensures old(work.trace) <= work.trace
      ensures old(work.script) == [] ==> work.script == []
      ensures r.Err? ==> r.error == UnknownSideEffect
      ensures old(work.effects) <= work.effects
      ensures OnlyCommits(work.effects, |old(work.effects)|, paths, mode, message, head, branch)
      ensures r.Ok? ==> r.value != head
      ensures old(work.script) == [] ==> work.repo.work == old(work.repo).work
      ensures old(work.script) == [] && mode == Create && Commits(old(work.repo), paths, message, head) ==>
                r == Ok(old(work.repo).next) && Some(work.repo) == CreateCommit(old(work.repo), paths, message)
      ensures mode == AmendSessionWip && |old(work.script)| <= 2 && r.Ok? ==>
                IsolatedCommit(work.repo, r.value, head, paths, mode)
      ensures mode == AmendSessionWip && Amends(old(work.repo), old(work.script), paths, head, branch) ==>
                var found := Played(old(work.repo), old(work.script), 4);
                r == Ok(found.next) && Some(work.repo) == AmendCommit(found, paths)
      ensures old(work.script) == [] && HeadOf(old(work.repo)) == Some(head) && Covers(paths, old(work.repo)) ==>
                if r.Ok? then
                  && OneNewTip(old(work.repo), work.repo, mode, message) && r.value == old(work.repo).next
                  && r.value in work.repo.commits
                  && IsolatedCommit(work.repo, r.value, head, paths, mode)
                  && (forall p :: p in paths ==>
                        Lookup(work.repo.commits[r.value].tree, p) == Lookup(old(work.repo).work, p))
                else work.repo == old(work.repo)
    {
      hide Extends;
      hide Accounted;
      hide WellFormed;
      hide ChangedPaths;
      hide Committed;
      hide CommitEffect;
      hide Amends;
      hide AmendCommit;
      ghost var r0 := work.repo;
      r := CommitAndConfirm(paths, mode, message, head, branch);
      if Committed(r0, work.repo, paths, mode, message) && HeadOf(r0) == Some(head) && Covers(paths, r0) {
        CommittedIsolated(r0, work.repo, paths, mode, message, head);
      }
      if work.repo != r0 && old(work.script) == [] { CommitKeepsWork(r0, work.repo, paths, mode, message); }
      if r.Err? { r := Err(UnknownSideEffect); }
    }

    /** Moves one tracked file and commits both paths. */
    method MoveTrackedFile(source: Path, destination: Path, head: CommitId, description: string,
                           mode: CommitMode, session: string, branch: string)
      returns (r: Result<CommitId, ErrorCode>)
      requires work.Valid()
      modifies work
      ensures work.Valid() && Extends(old(work.repo), work.repo)
      ensures old(work.trace) <= work.trace
      ensures r.Err? && r.error != UnknownSideEffect ==> OthersOnly(old(work.trace), work.trace)
      ensures r.Ok? && r.value != head && |old(work.script)| <= (if mode == Create then 6 else 9) ==>
                IsolatedCommit(work.repo, r.value, head, [source, destination], mode)
      ensures old(work.script) == [] ==> work.script == []
      ensures MutationOutcome(old(work.repo), old(work.script), old(work.effects), work.repo, work.effects, r,
                              [source, destination], mode, WipMessage(description, session), head, branch, Grace(mode, 6))
      ensures var ran := Reached(Played(old(work.repo), old(work.script), 3), Drop(old(work.script), 3));
              var rest, message := Drop(Drop(old(work.script), 3), 1), WipMessage(description, session);
              && ValidArguments(mode, description, session) && mode == Create
              && CleanOn(old(work.repo), old(work.script), head) && FateOf(Drop(old(work.script), 3)) == Completes
              && Apply(GitMove(source, destination), ran).Some?
              && Checks(Apply(GitMove(source, destination), ran).value, rest, [source, destination], message, head) ==>
                var checked := Played(Apply(GitMove(source, destination), ran).value, rest, 3);
                r == Ok(checked.next) && Some(work.repo) == CreateCommit(checked, [source, destination], message)
      ensures var ran := Reached(Played(old(work.repo), old(work.script), 3), Drop(old(work.script), 3));
              var rest, done := Drop(Drop(old(work.script), 3), 1), Apply(GitMove(source, destination), ran);
              && mode == AmendSessionWip && CleanOn(old(work.repo), old(work.script), head)
              && FateOf(Drop(old(work.script), 3)) == Completes && done.Some? && Passes(done.value, rest, [source, destination], head)
              && Amends(Played(done.value, rest, 3), Drop(rest, 3), [source, destination], head, branch) ==>
                var amended := Played(Played(done.value, rest, 3), Drop(rest, 3), 4);
                r == Ok(amended.next) && Some(work.repo) == AmendCommit(amended, [source, destination])
      ensures !ValidArguments(mode, description, session) ==> r == Err(InvalidRequest)
      ensures r.Ok? ==> r.value != head
      ensures r.Ok? && |old(work.script)| <= 3 ==>
                var before, after := TreeOf(work.repo, head), TreeOf(work.repo, r.value);
                source in before && destination !in before
                && after == (before - {source})[destination := before[source]]
    {
      hide MutationOutcome;
      hide IsolatedCommit;
      hide SameTips;
      hide Extends;
      hide Accounted;
      hide Apply;
      hide MovePath;
      hide RemovePath;
      hide Reached;
      hide Checks;
      hide CleanOn;
      hide Played;
      hide FateOf;
      hide Passes;
      hide Amends;
      hide AmendCommit;
      hide CreateCommit;
      hide WellFormed;
      hide WipMessage;
      hide ChangedPaths;
      ghost var past := work.Past();
      ghost var r0 := work.repo;
      ghost var message := WipMessage(description, session);
      ExtendsSelf(r0);
      SameTipsSelf(r0);
      var error := RequireReady(mode, description, session, head);
      ghost var r1 := work.repo;
      if error.Some? {
        OutcomeRefused(r0, old(work.script), past.effects, r1, error.value, [source, destination], mode, message, head, branch, Grace(mode, 6));
        return Err(error.value);
      }
      var done, r2 := RunFileCommand(GitMove(source, destination));
      ghost var r3 := work.repo;
      ExtendsTransitive(r0, r1, r2);
      ExtendsTransitive(r0, r2, r3);
      FileCommands(r2, source, destination);
      if !done {
        OwnMoves(work.origin, work.world, past, work.Past());
        OutcomeRefused(r0, old(work.script), past.effects, r3, GitRefused, [source, destination], mode, message, head, branch, Grace(mode, 6));
        return Err(GitRefused);
      }
      ghost var script, effects := work.script, work.effects;
      r := CheckAndConclude([source, destination], mode, WipMessage(description, session), head, branch);
      ExtendsTransitive(r0, r3, work.repo);
      ExtendsTransitive(r2, r3, work.repo);
      if r.Ok? && |old(work.script)| <= 3 {
        MovedTree(r2, work.repo, r.value, head, source, destination, mode);
      }
      OutcomeFrom(r0, old(work.script), past.effects, r3, script, effects, work.repo, work.effects, r,
                  [source, destination], mode, message, head, branch, Grace(mode, 6), if mode == Create then 2 else 5);
      OutcomeIsolated(r0, old(work.script), past.effects, work.repo, work.effects, r, [source, destination], mode, message, head,
                      branch, Grace(mode, 6));
    }

    /** Deletes one tracked file and commits the deletion. */
    method DeleteTrackedFile(path: Path, head: CommitId, description: string, mode: CommitMode,
                             session: string, branch: string)
      returns (r: Result<CommitId, ErrorCode>)
      requires work.Valid()
      modifies work
      ensures work.Valid() && Extends(old(work.repo), work.repo)
      ensures old(work.trace) <= work.trace
      ensures r.Err? && r.error != UnknownSideEffect ==> OthersOnly(old(work.trace), work.trace)
      ensures r.Ok? && r.value != head && |old(work.script)| <= (if mode == Create then 6 else 9) ==>
                IsolatedCommit(work.repo, r.value, head, [path], mode)
      ensures old(work.script) == [] ==> work.script == []
      ensures MutationOutcome(old(work.repo), old(work.script), old(work.effects), work.repo, work.effects, r,
                              [path], mode, WipMessage(description, session), head, branch, Grace(mode, 6))
      ensures var ran := Reached(Played(old(work.repo), old(work.script), 3), Drop(old(work.script), 3));
              var rest, message := Drop(Drop(old(work.script), 3), 1), WipMessage(description, session);
              && ValidArguments(mode, description, session) && mode == Create
              && CleanOn(old(work.repo), old(work.script), head) && FateOf(Drop(old(work.script), 3)) == Completes
              && Apply(GitRemove(path), ran).Some?
              && Checks(Apply(GitRemove(path), ran).value, rest, [path], message, head) ==>
                var checked := Played(Apply(GitRemove(path), ran).value, rest, 3);
                r == Ok(checked.next) && Some(work.repo) == CreateCommit(checked, [path], message)
      ensures var ran := Reached(Played(old(work.repo), old(work.script), 3), Drop(old(work.script), 3));
              var rest, done := Drop(Drop(old(work.script), 3), 1), Apply(GitRemove(path), ran);
              && mode == AmendSessionWip && CleanOn(old(work.repo), old(work.script), head)
              && FateOf(Drop(old(work.script), 3)) == Completes && done.Some? && Passes(done.value, rest, [path], head)
              && Amends(Played(done.value, rest, 3), Drop(rest, 3), [path], head, branch) ==>
                var amended := Played(Played(done.value, rest, 3), Drop(rest, 3), 4);
                r == Ok(amended.next) && Some(work.repo) == AmendCommit(amended, [path])
      ensures !ValidArguments(mode, description, session) ==> r == Err(InvalidRequest)
      ensures r.Ok? ==> r.value != head
      ensures r.Ok? && |old(work.script)| <= 4 ==>
                TreeOf(work.repo, r.value) == TreeOf(work.repo, head) - {path}
    {
      hide MutationOutcome;
      hide IsolatedCommit;
      hide SameTips;
      hide Extends;
      hide Accounted;
      hide Apply;
      hide MovePath;
      hide RemovePath;
      hide Reached;
      hide Checks;
      hide CleanOn;
      hide Played;
      hide FateOf;
      hide Passes;
      hide Amends;
      hide AmendCommit;
      hide CreateCommit;
      hide WellFormed;
      hide WipMessage;
      hide ChangedPaths;
      ghost var past := work.Past();
      ghost var r0 := work.repo;
      ghost var message := WipMessage(description, session);
      ExtendsSelf(r0);
      SameTipsSelf(r0);
      var error := RequireReady(mode, description, session, head);
      ghost var r1 := work.repo;
      if error.Some? {
        OutcomeRefused(r0, old(work.script), past.effects, r1, error.value, [path], mode, message, head, branch, Grace(mode, 6));
        return Err(error.value);
      }
      var done, r2 := RunFileCommand(GitRemove(path));
      ghost var r3 := work.repo;
      ExtendsTransitive(r0, r1, r2);
      ExtendsTransitive(r0, r2, r3);
      FileCommands(r2, path, path);
      if !done {
        OwnMoves(work.origin, work.world, past, work.Past());
        OutcomeRefused(r0, old(work.script), past.effects, r3, GitRefused, [path], mode, message, head, branch, Grace(mode, 6));
        return Err(GitRefused);
      }
      ghost var script, effects := work.script, work.effects;
      r := CheckAndConclude([path], mode, WipMessage(description, session), head, branch);
      ExtendsTransitive(r0, r3, work.repo);
      if r.Ok? && |old(work.script)| <= 4 {
        assert path in [path];
        DeletedTree(work.repo, r.value, head, path, mode);
      }
      OutcomeFrom(r0, old(work.script), past.effects, r3, script, effects, work.repo, work.effects, r,
                  [path], mode, message, head, branch, Grace(mode, 6), if mode == Create then 2 else 5);
      OutcomeIsolated(r0, old(work.script), past.effects, work.repo, work.effects, r, [path], mode, message, head,
                      branch, Grace(mode, 6));
    }

    /** Valid arguments, and a clean workspace on the expected head. */
    method RequireReady(mode: CommitMode, description: string, session: string, head: CommitId)
      returns (error: Option<ErrorCode>)
      requires work.Valid()
      modifies work
      ensures work.Valid() && Extends(old(work.repo), work.repo)
      ensures OthersOnly(old(work.trace), work.trace) && work.effects == old(work.effects)
      ensures error != Some(UnknownSideEffect)
      ensures !ValidArguments(mode, description, session) ==> error == Some(InvalidRequest)
      ensures error.None? ==> ValidArguments(mode, description, session)
      ensures error.None? ==> work.script == Drop(old(work.script), 3) && ChangedPaths(work.repo) == {}
      ensures error.None? && |old(work.script)| <= 2 ==> HeadOf(work.repo) == Some(head)
      ensures error.None? ==> work.repo == Played(old(work.repo), old(work.script), 3)
      ensures ValidArguments(mode, description, session) && CleanOn(old(work.repo), old(work.script), head) ==> error.None?
      ensures old(work.script) == [] ==> work.repo == old(work.repo) && work.script == []
    {
      hide Extends;
      hide Accounted;
      hide WellFormed;
      hide ChangedPaths;
      hide Reached;
      hide Played;
      hide CleanOn;
      ExtendsSelf(work.repo);
      if !ValidArguments(mode, description, session) { return Some(InvalidRequest); }
      error := RequireClean(head);
    }

    /** A clean workspace on the expected head. */
    method RequireClean(head: CommitId) returns (error: Option<ErrorCode>)
      requires work.Valid()
      modifies work
      ensures work.Valid() && Extends(old(work.repo), work.repo)
      ensures OthersOnly(old(work.trace), work.trace) && work.effects == old(work.effects)
      ensures error != Some(UnknownSideEffect)
      ensures error.None? ==> work.script == Drop(old(work.script), 3) && ChangedPaths(work.repo) == {}
      ensures error.None? && |old(work.script)| <= 2 ==> HeadOf(work.repo) == Some(head)
      ensures error.None? ==> work.repo == Played(old(work.repo), old(work.script), 3)
      ensures CleanOn(old(work.repo), old(work.script), head) ==> error.None?
      ensures old(work.script) == [] ==> work.repo == old(work.repo) && work.script == []
    {
      hide Extends;
      hide Accounted;
      hide WellFormed;
      hide ChangedPaths;
      hide Reached;
      hide Played;
      ghost var past := work.Past();
      var before := work.Status();
      OwnMoves(work.origin, work.world, past, work.Past());
      if before.Err? { return Some(before.error); }
      if before.value.head != head { return Some(Conflict); }
      if before.value.changed != {} { return Some(WorkspaceDirty); }
      return None;
    }

    /** One file command of Git, in the state `ran`; a failing one changed nothing. */
    method RunFileCommand(command: Command) returns (ok: bool, ghost ran: Repo)
      requires work.Valid() && (command.GitMove? || command.GitRemove?)
      modifies work
      ensures work.Valid() && Extends(old(work.repo), ran) && Extends(ran, work.repo) && WellFormed(ran)
      ensures old(work.trace) <= work.trace && work.script == Drop(old(work.script), 1)
      ensures ran == Reached(old(work.repo), old(work.script))
      ensures old(work.script) == [] ==> ran == old(work.repo)
      ensures ok <==> Apply(command, ran).Some? && FateOf(old(work.script)) == Completes
      ensures ok ==> Apply(command, ran) == Some(work.repo)
                     && work.effects == old(work.effects) + [Effect(command, ran, work.repo, [])]
      ensures !ok ==> work.repo == ran && work.effects == old(work.effects)
    {
      hide Extends;
      hide Accounted;
      hide Apply;
      hide Reached;
      ghost var r0 := work.repo;
      var fate := work.Await();
      ran := work.repo;
      ExtendsMeans(r0, ran);
      ok := work.Perform(command, fate, true, []);
    }

    /** After `git mv` or `git rm`: nothing but `paths` may have changed, then they are committed. */
    method CheckAndConclude(paths: seq<Path>, mode: CommitMode, message: string, head: CommitId, branch: string)
      returns (r: Result<CommitId, ErrorCode>)
      requires work.Valid()
      modifies work
      ensures work.Valid() && Extends(old(work.repo), work.repo)
      ensures old(work.trace) <= work.trace
      ensures old(work.script) == [] ==> work.script == []
      ensures r.Err? ==> r.error == UnknownSideEffect
      ensures mode == Create && Checks(old(work.repo), old(work.script), paths, message, head) ==>
                var checked := Played(old(work.repo), old(work.script), 3);
                r == Ok(checked.next) && Some(work.repo) == CreateCommit(checked, paths, message)
      ensures mode == AmendSessionWip && Passes(old(work.repo), old(work.script), paths, head)
              && Amends(Played(old(work.repo), old(work.script), 3), Drop(old(work.script), 3), paths, head, branch) ==>
                var amended := Played(Played(old(work.repo), old(work.script), 3), Drop(old(work.script), 3), 4);
                r == Ok(amended.next) && Some(work.repo) == AmendCommit(amended, paths)
      ensures r.Ok? ==> r.value != head
      ensures r.Ok? && |old(work.script)| <= 2 ==>
                IsolatedCommit(work.repo, r.value, head, paths, mode)
      ensures MutationOutcome(old(work.repo), old(work.script), old(work.effects), work.repo, work.effects, r,
                              paths, mode, message, head, branch, if mode == Create then 2 else 5)
      ensures r.Ok? && old(work.script) == [] ==>
                && HeadOf(old(work.repo)) == Some(head)
                && forall p :: p in paths ==>
                     Lookup(TreeOf(work.repo, r.value), p) == Lookup(old(work.repo).work, p)
    {
      hide Extends;
      hide Accounted;
      hide WellFormed;
      hide ChangedPaths;
      hide OneNewTip;
      hide CommitEffect;
      hide IsolatedCommit;
      hide Amends;
      hide AmendCommit;
      hide CreateCommit;
      ghost var r0 := work.repo;
      ExtendsSelf(r0);
      var staged := work.Status();
      ghost var r1 := work.repo;
      if staged.Err? { return Err(UnknownSideEffect); }
      if staged.value.head != head || (exists p :: p in staged.value.changed && p !in paths) {
        return Err(UnknownSideEffect);
      }
      r := Conclude(paths, mode, message, head, branch);
      ExtendsTransitive(r0, r1, work.repo);
    }
  }
}
