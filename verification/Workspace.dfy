/** `git_guard.py`: the Git commands of the Bridge, each behind an await at which anybody else may
    change the repository or the command may fail. */
module Workspaces {
  import opened Basics
  import opened Repository
  import opened Footers

  datatype ErrorCode =
    | Conflict | WorkspaceDirty | FileNotFound | BackendUnavailable | UnknownSideEffect | InvalidRequest
    | SensitivePath | CheckpointInvalid | CheckpointConflict | CheckpointNotFound | BranchNotAllowed | StoreFailure
    | SessionRequired | SessionNotFound
    | GitRefused  // a conflict that Git itself reported

  datatype CommitMode = Create | AmendSessionWip

  datatype Fate = Completes | FailsBefore | FailsAfter

  /** What happens at one await: the repository as others leave it, and the command's fate. */
  datatype Interference = Interference(repo: Repo, fate: Fate)

  /** The commands with which the Bridge changes a repository. */
  datatype Command =
    | GitWrite(path: Path, content: string)
    | GitAdd(path: Path)
    | GitCommit(paths: seq<Path>, message: string)
    | GitAmend(paths: seq<Path>)
    | GitMove(source: Path, destination: Path)
    | GitRemove(path: Path)
    | GitReset(checkpoint: Id)
    | GitSetRef(checkpoint: Id, target: CommitId)
    | GitDropRef(checkpoint: Id)

  /** What a command makes of the repository; None when it refuses. */
  function Apply(c: Command, r: Repo): Option<Repo> {
    match c
    case GitWrite(path, content) => Some(Write(r, path, content))
    case GitAdd(path) => AddPath(r, path)
    case GitCommit(paths, message) => CreateCommit(r, paths, message)
    case GitAmend(paths) => AmendCommit(r, paths)
    case GitMove(source, destination) => MovePath(r, source, destination)
    case GitRemove(path) => RemovePath(r, path)
    case GitReset(checkpoint) =>
      if HeadOf(r).Some? && CheckpointRef(checkpoint) in r.refs
      then Some(ResetHard(r, r.refs[CheckpointRef(checkpoint)])) else None
    case GitSetRef(checkpoint, target) => SetRef(r, CheckpointRef(checkpoint), target)
    case GitDropRef(checkpoint) => Some(DeleteRef(r, CheckpointRef(checkpoint)))
  }

  lemma ApplyExtends(c: Command, r: Repo)
    requires WellFormed(r)
    ensures Apply(c, r).Some? ==> Extends(r, Apply(c, r).value)
  {
    hide Extends;
    hide WellFormed;
    match c
    case GitWrite(path, content) => WriteExtends(r, path, content);
    case GitAdd(path) => IndexStepsExtend(r, path, path);
    case GitCommit(paths, message) => CommitsExtend(r, paths, message);
    case GitAmend(paths) => CommitsExtend(r, paths, "");
    case GitMove(source, destination) => IndexStepsExtend(r, source, destination);
    case GitRemove(path) => IndexStepsExtend(r, path, path);
    case GitReset(checkpoint) =>
      if HeadOf(r).Some? && CheckpointRef(checkpoint) in r.refs { ResetExtends(r, CheckpointRef(checkpoint)); }
    case GitSetRef(checkpoint, target) => RefStepsExtend(r, CheckpointRef(checkpoint), target);
    case GitDropRef(checkpoint) => RefStepsExtend(r, CheckpointRef(checkpoint), 0);
  }

  /** One command of the Bridge that took effect; `recheck` are the states in which the last commands up to
      it ran: for an amend the four of its recheck, and its own. */
  datatype Effect = Effect(command: Command, before: Repo, after: Repo, recheck: seq<Repo>)

  /** One move of a repository: what others did at an await, or what the Bridge did. */
  datatype Move = Others(start: Repo, end: Repo) | Ours(effect: Effect)

  /** The repository in which the next command runs. */
  function Reached(r: Repo, script: seq<Interference>): Repo {
    if script == [] || !Extends(r, script[0].repo) then r else script[0].repo
  }

  function FateOf(script: seq<Interference>): Fate {
    if script == [] then Completes else script[0].fate
  }

  /** The repository after `k` awaits at which the Bridge itself changes nothing. */
  function Played(r: Repo, script: seq<Interference>, k: nat): Repo {
    if k == 0 then r else Reached(Played(r, script, k - 1), Drop(script, k - 1))
  }

  /** The repositories that the three commands of a status see. */
  function States(r: Repo, script: seq<Interference>): seq<Repo> {
    [Played(r, script, 1), Played(r, script, 2), Played(r, script, 3)]
  }

  /** None of the next `k` commands fails. */
  predicate Complete(script: seq<Interference>, k: nat) {
    forall i :: 0 <= i < k && i < |script| ==> script[i].fate == Completes
  }

  /** A status goes through. */
  predicate Shows(r: Repo, script: seq<Interference>) {
    Complete(script, 3) && HeadOf(Played(r, script, 1)).Some? && HeadOf(Played(r, script, 2)).Some?
  }

  /** The recheck before an amend goes through. */
  predicate Rechecks(r: Repo, script: seq<Interference>, head: CommitId, branch: string) {
    && Shows(r, script) && BranchName(Played(r, script, 1)) == branch && HeadOf(Played(r, script, 2)) == Some(head)
    && FateOf(Drop(script, 3)) == Completes
    && head in Played(r, script, 4).commits && SharedRefs(Played(r, script, 4), head, branch) == {}
  }

  lemma ThreeAwaits(r: Repo, script: seq<Interference>)
    ensures Played(r, script, 1) == Reached(r, script)
    ensures Played(r, script, 2) == Reached(Played(r, script, 1), Drop(script, 1))
    ensures Played(r, script, 3) == Reached(Played(r, script, 2), Drop(script, 2))
    ensures Drop(Drop(script, 1), 1) == Drop(script, 2)
    ensures Complete(script, 3) <==>
              FateOf(script) == FateOf(Drop(script, 1)) == FateOf(Drop(script, 2)) == Completes
  {
    hide Reached;
  }

  lemma FourthAwait(r: Repo, script: seq<Interference>)
    ensures Played(r, script, 4) == Reached(Played(r, script, 3), Drop(script, 3))
    ensures Drop(Drop(script, 3), 1) == Drop(script, 4)
  {
    hide Reached;
  }

  /** Everything that is remembered of a repository: its moves, what it is now, the states in which
      commands ran, and the effects of the Bridge's own. */
  datatype History = History(moves: seq<Move>, repo: Repo, seen: seq<Repo>, effects: seq<Effect>)

  /** The states at the last awaits. */
  predicate Recent(recheck: seq<Repo>, seen: seq<Repo>) {
    |recheck| <= |seen| && recheck == seen[|seen| - |recheck|..]
  }

  lemma RecentTail(seen: seq<Repo>, n: nat)
    requires n <= |seen|
    ensures Recent(seen[n..], seen)
  {
  }

  /** No move is unaccounted for: the moves lead from `origin` to the repository, each starting where the
      one before it ended; the moves of others are the steps of `script`, in order, one at each await;
      every other move is what one of the Bridge's commands does, and is logged. */
  ghost predicate Accounted(origin: Repo, script: seq<Interference>, h: History)
    decreases |h.moves|
  {
    if h.moves == [] then h == History([], origin, [], [])
    else
      var earlier := h.moves[..|h.moves| - 1];
      match h.moves[|h.moves| - 1]
      case Others(start, end) =>
        && h.seen != [] && h.seen[|h.seen| - 1] == end == h.repo
        && end == Reached(start, Drop(script, |h.seen| - 1))
        && Accounted(origin, script, History(earlier, start, h.seen[..|h.seen| - 1], h.effects))
      case Ours(e) =>
        && h.effects != [] && h.effects[|h.effects| - 1] == e && e.after == h.repo
        && Apply(e.command, e.before) == Some(e.after) && Recent(e.recheck, h.seen)
        && Accounted(origin, script, History(earlier, e.before, h.seen, h.effects[..|h.effects| - 1]))
  }

  lemma AccountAwait(origin: Repo, script: seq<Interference>, h: History, next: Repo)
    requires Accounted(origin, script, h) && next == Reached(h.repo, Drop(script, |h.seen|))
    ensures Accounted(origin, script, History(h.moves + [Others(h.repo, next)], next, h.seen + [next], h.effects))
  {
    assert (h.moves + [Others(h.repo, next)])[..|h.moves|] == h.moves && (h.seen + [next])[..|h.seen|] == h.seen;
  }

  lemma AccountEffect(origin: Repo, script: seq<Interference>, h: History, e: Effect)
    requires Accounted(origin, script, h) && e.before == h.repo && Apply(e.command, h.repo) == Some(e.after)
    requires Recent(e.recheck, h.seen)
    ensures Accounted(origin, script, History(h.moves + [Ours(e)], e.after, h.seen, h.effects + [e]))
  {
    assert (h.moves + [Ours(e)])[..|h.moves|] == h.moves && (h.effects + [e])[..|h.effects|] == h.effects;
  }

  /** Since `was`, only others moved. */
  ghost predicate OthersOnly(was: seq<Move>, now: seq<Move>) {
    was <= now && forall i :: |was| <= i < |now| ==> now[i].Others?
  }

  /** The new moves that are the Bridge's own are new effects. */
  ghost predicate OwnMovesLogged(was: History, now: History) {
    forall k :: |was.moves| <= k < |now.moves| && now.moves[k].Ours? ==>
      exists i :: |was.effects| <= i < |now.effects| && now.effects[i] == now.moves[k].effect
  }

  /** One move back. */
  lemma Earlier(origin: Repo, script: seq<Interference>, now: History) returns (before: History)
    requires Accounted(origin, script, now) && now.moves != []
    ensures Accounted(origin, script, before)
    ensures |now.moves| == |before.moves| + 1 && now.moves == before.moves + [now.moves[|before.moves|]]
    ensures match now.moves[|before.moves|]
            case Others(start, end) =>
              start == before.repo && end == now.repo && now.effects == before.effects && now.seen == before.seen + [end]
            case Ours(e) =>
              e.before == before.repo && e.after == now.repo && now.seen == before.seen
              && now.effects == before.effects + [e] && Apply(e.command, e.before) == Some(e.after)
  {
    hide Apply;
    hide Reached;
    var earlier := now.moves[..|now.moves| - 1];
    match now.moves[|now.moves| - 1]
    case Others(start, end) => before := History(earlier, start, now.seen[..|now.seen| - 1], now.effects);
    case Ours(e) => before := History(earlier, e.before, now.seen, now.effects[..|now.effects| - 1]);
  }

  /** Between two moments of one history every move of the Bridge is a logged effect; without a new
      effect only others moved. */
  lemma {:induction false} OwnMoves(origin: Repo, script: seq<Interference>, was: History, now: History)
    requires Accounted(origin, script, was) && Accounted(origin, script, now) && was.moves <= now.moves
    ensures was.effects <= now.effects && was.seen <= now.seen
    ensures OwnMovesLogged(was, now)
    ensures now.effects == was.effects ==> OthersOnly(was.moves, now.moves)
    decreases |now.moves|
  {
    hide Accounted;
    if was.moves == now.moves {
      SameHistory(origin, script, was, now);
    } else {
      var before := Earlier(origin, script, now);
      OwnMoves(origin, script, was, before);
      OneMoreMove(was, before, now);
    }
  }

  lemma OneMoreMove(was: History, before: History, now: History)
    requires OwnMovesLogged(was, before) && was.effects <= before.effects
    requires before.effects == was.effects ==> OthersOnly(was.moves, before.moves)
    requires was.moves <= before.moves && |now.moves| == |before.moves| + 1
    requires now.moves == before.moves + [now.moves[|before.moves|]]
    requires match now.moves[|before.moves|]
             case Others(_, _) => now.effects == before.effects
             case Ours(e) => now.effects == before.effects + [e]
    ensures OwnMovesLogged(was, now)
    ensures now.effects == was.effects ==> OthersOnly(was.moves, now.moves)
  {
    var last := now.moves[|before.moves|];
    if last.Ours? {
      OneMoreOwn(was, before, now, last.effect);
    } else {
      forall k | |was.moves| <= k < |now.moves| && now.moves[k].Ours?
        ensures exists i :: |was.effects| <= i < |now.effects| && now.effects[i] == now.moves[k].effect
      {
        assert now.moves[k] == before.moves[k];
      }
    }
  }

  lemma OneMoreOwn(was: History, before: History, now: History, e: Effect)
    requires OwnMovesLogged(was, before) && |was.effects| <= |before.effects|
    requires now.moves == before.moves + [Ours(e)] && now.effects == before.effects + [e]
    ensures OwnMovesLogged(was, now)
  {
    forall k | |was.moves| <= k < |now.moves| && now.moves[k].Ours?
      ensures exists i :: |was.effects| <= i < |now.effects| && now.effects[i] == now.moves[k].effect
    {
      if k < |before.moves| {
        var i :| |was.effects| <= i < |before.effects| && before.effects[i] == before.moves[k].effect;
        assert now.effects[i] == now.moves[k].effect;
      } else {
        assert now.effects[|before.effects|] == now.moves[k].effect;
      }
    }
  }

  lemma {:induction false} SameHistory(origin: Repo, script: seq<Interference>, a: History, b: History)
    requires Accounted(origin, script, a) && Accounted(origin, script, b) && a.moves == b.moves
    ensures a == b
    decreases |a.moves|
  {
    hide Apply;
    hide Reached;
    if a.moves != [] {
      var before := Earlier(origin, script, a);
      var other := Earlier(origin, script, b);
      SameHistory(origin, script, before, other);
    }
  }

  datatype GitStatus = GitStatus(branch: string, head: CommitId, changed: set<Path>)

  /** How the operating system answers the file access of `commit_file_bytes`. */
  datatype Disk = Disk(readable: bool, writable: bool)

  function Drop<T>(s: seq<T>, k: nat): seq<T> {
    if k <= |s| then s[k..] else []
  }

  /** All of `states` are the one state `r`. */
  ghost predicate Still(states: seq<Repo>, r: Repo) {
    forall i :: 0 <= i < |states| ==> states[i] == r
  }

  /** The tip that an amend replaces is the expected one, on the expected branch, and nothing else
      published holds it; the new tip keeps its parents and its message. */
  ghost predicate AmendSafe(e: Effect, head: CommitId, branch: string) {
    && HeadOf(e.before) == Some(head) && BranchName(e.before) == branch
    && Unshared(e.before, head, branch)
    && head in e.before.commits
    && HeadOf(e.after).Some? && HeadOf(e.after).value in e.after.commits
    && var tip := e.after.commits[HeadOf(e.after).value];
    && tip.parents == e.before.commits[head].parents && tip.message == e.before.commits[head].message
    && BranchName(e.after) == branch
  }

  /** What the Bridge's only commit commands may do. An amend is safe whenever the repository was the same
      at the five awaits of its recheck and its own. */
  ghost predicate CommitEffect(e: Effect, paths: seq<Path>, mode: CommitMode, message: string,
                               head: CommitId, branch: string)
  {
    && HeadOf(e.before).Some? && HeadOf(e.before).value in e.before.commits
    && var tip := e.before.commits[HeadOf(e.before).value];
    match mode
    case Create =>
      e.command == GitCommit(paths, message) && e.after == CommitOnly(e.before, paths, [HeadOf(e.before).value], message)
    case AmendSessionWip =>
      e.command == GitAmend(paths) && e.after == CommitOnly(e.before, paths, tip.parents, tip.message)
      && |e.recheck| == 5 && (Still(e.recheck, e.before) ==> AmendSafe(e, head, branch))
  }

  class Workspace {
    var repo: Repo
    /** What others do at the awaits to come; nothing once it is exhausted. */
    var script: seq<Interference>
    /** The state in which each command so far ran. */
    ghost var seen: seq<Repo>
    /** The commands of the Bridge that took effect. */
    ghost var effects: seq<Effect>
    /** Every move of the repository so far. */
    ghost var trace: seq<Move>
    ghost const origin: Repo
    ghost const world: seq<Interference>

    ghost function Past(): History
      reads this
    {
      History(trace, repo, seen, effects)
    }

    /** No move of the repository is unaccounted for: each is the next step of others or a logged
        effect of a command of the Bridge. */
    ghost predicate Valid()
      reads this
    {
      && WellFormed(repo)
      && (forall i :: 0 <= i < |seen| ==> Extends(seen[i], repo))
      && (forall i :: 0 <= i < |effects| ==> Extends(effects[i].before, repo))
      && Accounted(origin, world, Past())
      && script == Drop(world, |seen|)
    }

    constructor (repo: Repo, script: seq<Interference>)
      requires WellFormed(repo)
      ensures Valid() && this.repo == repo && this.script == script && origin == repo && world == script
      ensures seen == [] && effects == [] && trace == []
    {
      this.repo, this.script, seen, effects, trace := repo, script, [], [], [];
      origin, world := repo, script;
    }

    /** Others act, then the command runs. */
    method Await() returns (fate: Fate)
      requires Valid()
      modifies this`repo, this`script, this`seen, this`trace
      ensures Valid() && Extends(old(repo), repo)
      ensures trace == old(trace) + [Others(old(repo), repo)]
      ensures seen == old(seen) + [repo] && script == Drop(old(script), 1)
      ensures repo == Reached(old(repo), old(script)) && fate == FateOf(old(script))
      ensures old(script) == [] ==> repo == old(repo) && fate == Completes
    {
      hide Extends;
      hide WellFormed;
      hide Accounted;
      fate := FateOf(script);
      ExtendsSelf(repo);
      var next := Reached(repo, script);
      if next != repo { ExtendsMeans(repo, next); }
      AccountAwait(origin, world, Past(), next);
      Grown(next);
      ExtendsSelf(next);
      trace, seen := trace + [Others(repo, next)], seen + [next];
      repo := next;
      if script != [] { script := script[1..]; }
    }

    /** What extends the repository extends everything it went through. */
    lemma Grown(target: Repo)
      requires Valid() && Extends(repo, target)
      ensures forall i :: 0 <= i < |seen| ==> Extends(seen[i], target)
      ensures forall i :: 0 <= i < |effects| ==> Extends(effects[i].before, target)
    {
      hide Extends;
      hide Accounted;
      forall i | 0 <= i < |seen| ensures Extends(seen[i], target) {
        ExtendsTransitive(seen[i], repo, target);
      }
      forall i | 0 <= i < |effects| ensures Extends(effects[i].before, target) {
        ExtendsTransitive(effects[i].before, repo, target);
      }
    }

    /** Runs a command that changes the repository. It may refuse; and a failing command may still have
        taken effect, except where `atomic` says it cannot. */
    method Perform(command: Command, fate: Fate, atomic: bool, ghost recheck: seq<Repo>)
      returns (ok: bool)
      requires Valid() && Recent(recheck, seen)
      modifies this`repo, this`effects, this`trace
      ensures Valid() && Extends(old(repo), repo)
      ensures old(trace) <= trace
      ensures ok <==> Apply(command, old(repo)).Some? && fate == Completes
      ensures var target := Apply(command, old(repo));
              var lands := target.Some? && (fate == Completes || (fate == FailsAfter && !atomic));
              && repo == (if lands then target.value else old(repo))
              && effects == old(effects) + if lands then [Effect(command, old(repo), repo, recheck)] else []
    {
      hide Extends;
      hide WellFormed;
      hide Accounted;
      hide Apply;
      ExtendsSelf(repo);
      var target := Apply(command, repo);
      ok := target.Some? && fate == Completes;
      if target.Some? && (fate == Completes || (fate == FailsAfter && !atomic)) {
        ApplyExtends(command, repo);
        ExtendsMeans(repo, target.value);
        ghost var e := Effect(command, repo, target.value, recheck);
        AccountEffect(origin, world, Past(), e);
        Grown(target.value);
        trace, effects := trace + [Ours(e)], effects + [e];
        repo := target.value;
      }
    }

    /** Three commands, each of which may see another repository. */
    method Status() returns (r: Result<GitStatus, ErrorCode>)
      requires Valid()
      modifies this`repo, this`script, this`seen, this`trace
      ensures Valid() && Extends(old(repo), repo) && old(seen) <= seen
      ensures old(trace) <= trace
      ensures r.Err? ==> r.error == BackendUnavailable
      ensures var n := |old(seen)|;
              r.Ok? ==>
                && |seen| == n + 3 && script == Drop(old(script), 3) && repo == seen[n + 2]
                && HeadOf(seen[n]).Some? && r.value.branch == BranchName(seen[n])
                && HeadOf(seen[n + 1]) == Some(r.value.head)
                && r.value.changed == ChangedPaths(seen[n + 2])
      ensures |old(script)| <= 1 && r.Ok? ==> seen[|old(seen)|] == repo && seen[|old(seen)| + 1] == repo
      ensures |old(script)| <= 2 && r.Ok? ==> seen[|old(seen)| + 1] == repo
      ensures r.Ok? ==> seen[|old(seen)|..] == States(old(repo), old(script))
      ensures r.Ok? <==> Shows(old(repo), old(script))
      ensures r.Ok? ==> repo == Played(old(repo), old(script), 3)
      ensures old(script) == [] ==>
                && repo == old(repo) && script == [] && (r.Ok? <==> HeadOf(repo).Some?)
                && (r.Ok? ==> r.value == GitStatus(BranchName(repo), HeadOf(repo).value, ChangedPaths(repo)))
    {
      hide Extends;
      hide Accounted;
      hide WellFormed;
      hide ChangedPaths;
      hide Reached;
      ghost var r0 := repo;
      ThreeAwaits(repo, script);
      var fate := Await();
      ghost var r1 := repo;
      if fate != Completes || HeadOf(repo).None? { return Err(BackendUnavailable); }
      var branch := BranchName(repo);
      fate := Await();
      ghost var r2 := repo;
      ExtendsTransitive(r0, r1, r2);
      if fate != Completes || HeadOf(repo).None? { return Err(BackendUnavailable); }
      var head := HeadOf(repo).value;
      fate := Await();
      ExtendsTransitive(r0, r2, repo);
      if fate != Completes { return Err(BackendUnavailable); }
      return Ok(GitStatus(branch, head, ChangedPaths(repo)));
    }

    /** The other published refs that hold the tip. */
    method SharedRefsContainingHead(head: CommitId, branch: string) returns (r: Result<set<RefName>, ErrorCode>)
      requires Valid()
      modifies this`repo, this`script, this`seen, this`trace
      ensures Valid() && Extends(old(repo), repo)
      ensures old(trace) <= trace
      ensures seen == old(seen) + [repo] && script == Drop(old(script), 1)
      ensures r.Ok? ==> head in repo.commits && r.value == SharedRefs(repo, head, branch)
      ensures r.Ok? ==> forall n :: n in r.value <==>
                n in repo.refs && SharedName(n, branch) && LeadsTo(repo.commits, repo.refs[n], head)
      ensures repo == Reached(old(repo), old(script))
      ensures r.Ok? <==> FateOf(old(script)) == Completes && head in repo.commits
      ensures old(script) == [] ==> repo == old(repo) && (r.Ok? <==> head in repo.commits)
    {
      hide Extends;
      hide Accounted;
      hide SharedRefs;
      hide LeadsTo;
      hide WellFormed;
      var fate := Await();
      if fate != Completes || head !in repo.commits { return Err(BackendUnavailable); }
      SharedByPath(repo, head, branch);
      return Ok(SharedRefs(repo, head, branch));
    }

    /** The session named by the footer of a commit. */
    method ReadSessionFooter(head: CommitId) returns (r: Result<Option<string>, ErrorCode>)
      requires Valid()
      modifies this`repo, this`script, this`seen, this`trace
      ensures Valid() && Extends(old(repo), repo)
      ensures old(trace) <= trace
      ensures seen == old(seen) + [repo] && script == Drop(old(script), 1)
      ensures r.Ok? ==> head in repo.commits && r.value == ParseFooter(repo.commits[head].message)
      ensures old(script) == [] ==> repo == old(repo) && (r.Ok? <==> head in repo.commits)
    {
      hide Extends;
      hide Accounted;
      hide ParseFooter;
      var fate := Await();
      if fate != Completes || head !in repo.commits { return Err(BackendUnavailable); }
      return Ok(ParseFooter(repo.commits[head].message));
    }

    /** The recheck right before an amend. */
    method VerifyAmendTarget(head: CommitId, branch: string) returns (error: Option<ErrorCode>)
      requires Valid()
      modifies this`repo, this`script, this`seen, this`trace
      ensures Valid() && Extends(old(repo), repo) && old(seen) <= seen
      ensures old(trace) <= trace
      ensures var n := |old(seen)|;
              error.None? ==>
                && |seen| == n + 4 && script == Drop(old(script), 4) && repo == seen[n + 3]
                && BranchName(seen[n]) == branch && HeadOf(seen[n + 1]) == Some(head)
                && SharedRefs(seen[n + 3], head, branch) == {} && Unshared(repo, head, branch) && head in repo.commits
      ensures error.None? && |old(script)| <= 2 ==> HeadOf(repo) == Some(head) && script == []
      ensures error.None? <==> Rechecks(old(repo), old(script), head, branch)
      ensures error.None? ==> repo == Played(old(repo), old(script), 4)
      ensures old(script) == [] ==>
                repo == old(repo) && script == []
                && (error.None? <==> HeadOf(repo) == Some(head) && head in repo.commits && BranchName(repo) == branch
                                     && Unshared(repo, head, branch))
    {
      hide Extends;
      hide Accounted;
      hide WellFormed;
      hide SharedRefs;
      hide LeadsTo;
      hide Shows;
      ghost var r0 := repo;
      var current := Status();
      ghost var r1 := repo;
      if current.Err? { return Some(current.error); }
      if current.value.head != head || current.value.branch != branch { return Some(Conflict); }
      var shared := SharedRefsContainingHead(current.value.head, current.value.branch);
      ExtendsTransitive(r0, r1, repo);
      if shared.Err? { return Some(shared.error); }
      SharedByPath(repo, head, branch);
      if shared.value != {} { return Some(Conflict); }
      return None;
    }
  }
}
